/** Reconcile: which overlay rows a new base snapshot makes stale, and what dropping them does. */
module ReconcileSpec {
  import opened Wrappers
  import opened Paths
  import opened OverlayState
  import opened MergedView
  import opened EngineSpec
  import opened EngineRuns

  type Nodes = map<string, BaseNode>

  predicate SameOid(nodes: Nodes, p: string, oid: string) {
    p in nodes && nodes[p].oid == oid
  }

  /** The base path a rename row is checked against. */
  function RenameSource(e: Entry): string {
    if e.target == "" then e.path else e.target
  }

  predicate StaleRename(nodes: Nodes, e: Entry) {
    e.kind == Rename && !SameOid(nodes, RenameSource(e), e.oid)
  }

  predicate StaleSource(nodes: Nodes, rows: Rows, p: string) {
    exists r :: r in rows && StaleRename(nodes, rows[r]) && RenameSource(rows[r]) == p
  }

  /** A row the new base makes stale.  A whiteout goes with any stale rename of the path it
      stands at or of the path it was written for. */
  predicate Stale(nodes: Nodes, rows: Rows, e: Entry) {
    match e.kind
    case Modify => !SameOid(nodes, e.path, e.oid)
    case Rename => StaleRename(nodes, e)
    case Create => e.path in nodes
    case Mkdir => e.path in nodes && nodes[e.path].typ == TDir
    case Symlink => false
    case Delete => StaleSource(nodes, rows, e.path) || StaleSource(nodes, rows, e.target) || e.path !in nodes
  }

  function Kept(nodes: Nodes, rows: Rows): Rows {
    map p | p in rows && !Stale(nodes, rows, rows[p]) :: rows[p]
  }

  ghost predicate Keyed(rows: Rows) { forall p :: p in rows ==> rows[p].path == p && p != "" }

  /** Reconciling twice against one base changes nothing the second time. */
  lemma KeptIdempotent(nodes: Nodes, rows: Rows)
    ensures Kept(nodes, Kept(nodes, rows)) == Kept(nodes, rows)
  {
    var kept := Kept(nodes, rows);
    forall p | p in kept ensures !Stale(nodes, kept, kept[p]) {
      forall r | r in kept ensures !StaleRename(nodes, kept[r]) {
        assert !Stale(nodes, rows, rows[r]);
      }
      assert !Stale(nodes, rows, rows[p]);
    }
  }

  // ---- the guarded delete ----

  /** DELETE ... WHERE path=? AND kind=? AND source_oid=? AND mtime_unix_ns=? */
  predicate Matches(rows: Rows, e: Entry) {
    && e.path in rows
    && rows[e.path].kind == e.kind && rows[e.path].oid == e.oid && rows[e.path].mtime == e.mtime
  }

  function DeleteAll(rows: Rows, plan: seq<Entry>): Rows
    decreases |plan|
  {
    if plan == [] then rows
    else DeleteAll(if Matches(rows, plan[0]) then rows - {plan[0].path} else rows, plan[1..])
  }

  function Deleted(rows: Rows, plan: seq<Entry>): (d: seq<Entry>)
    decreases |plan|
  {
    if plan == [] then []
    else if Matches(rows, plan[0]) then [plan[0]] + Deleted(rows - {plan[0].path}, plan[1..])
    else Deleted(rows, plan[1..])
  }

  lemma {:induction false} DeleteAllIs(rows: Rows, plan: seq<Entry>)
    ensures DeleteAll(rows, plan).Keys <= rows.Keys
    ensures forall p :: p in DeleteAll(rows, plan) ==> DeleteAll(rows, plan)[p] == rows[p]
    ensures forall p :: p in rows ==>
              (p !in DeleteAll(rows, plan) <==> exists i :: 0 <= i < |plan| && plan[i].path == p && Matches(rows, plan[i]))
    decreases |plan|
  {
    if plan != [] {
      var e := plan[0];
      var rows1 := if Matches(rows, e) then rows - {e.path} else rows;
      DeleteAllIs(rows1, plan[1..]);
      forall p | p in rows
        ensures p !in DeleteAll(rows, plan) <==> exists i :: 0 <= i < |plan| && plan[i].path == p && Matches(rows, plan[i])
      {
        if p in rows1 {
          if i :| 0 <= i < |plan[1..]| && plan[1..][i].path == p && Matches(rows1, plan[1..][i]) {
            assert plan[i + 1].path == p && Matches(rows, plan[i + 1]);
          }
          if i :| 0 <= i < |plan| && plan[i].path == p && Matches(rows, plan[i]) {
            if i > 0 { assert plan[1..][i - 1] == plan[i] && Matches(rows1, plan[1..][i - 1]); }
          }
        } else {
          assert plan[0].path == p && Matches(rows, plan[0]);
        }
      }
    }
  }

  /** A plan that lists exactly the stale rows, as they are in the table. */
  ghost predicate PlanOf(nodes: Nodes, rows: Rows, plan: seq<Entry>) {
    && (forall i :: 0 <= i < |plan| ==> plan[i].path in rows && plan[i] == rows[plan[i].path] && Stale(nodes, rows, plan[i]))
    && (forall p :: p in rows && Stale(nodes, rows, rows[p]) ==> rows[p] in plan)
  }

  /** With no operation in between, the guarded delete removes the stale rows and no others. */
  lemma UndisturbedDelete(nodes: Nodes, rows: Rows, plan: seq<Entry>)
    requires Keyed(rows) && PlanOf(nodes, rows, plan)
    ensures DeleteAll(rows, plan) == Kept(nodes, rows)
  {
    DeleteAllIs(rows, plan);
    forall p | p in rows ensures p in DeleteAll(rows, plan) <==> p in Kept(nodes, rows) {
      if Stale(nodes, rows, rows[p]) {
        var i :| 0 <= i < |plan| && plan[i] == rows[p];
        assert plan[i].path == p && Matches(rows, plan[i]);
      }
    }
  }

  /** os.Remove of the dropped rows' backing files, last first */
  function RemoveBackings(disk: Disk, dropped: seq<Entry>): Disk
    decreases |dropped|
  {
    if dropped == [] then disk
    else
      var e := dropped[|dropped| - 1];
      RemoveBackings(if e.backing != "" then RemoveNode(disk, e.backing) else disk, dropped[..|dropped| - 1])
  }

  lemma {:induction false} RemoveBackingsKeeps(disk: Disk, dropped: seq<Entry>)
    ensures forall q :: q in disk && (forall i :: 0 <= i < |dropped| ==> dropped[i].backing != q) ==>
              q in RemoveBackings(disk, dropped) && RemoveBackings(disk, dropped)[q] == disk[q]
    decreases |dropped|
  {
    if dropped != [] {
      var e := dropped[|dropped| - 1];
      var disk1 := if e.backing != "" then RemoveNode(disk, e.backing) else disk;
      RemoveBackingsKeeps(disk1, dropped[..|dropped| - 1]);
    }
  }

  lemma {:induction false} DeletedIs(rows: Rows, plan: seq<Entry>)
    ensures forall i :: 0 <= i < |Deleted(rows, plan)| ==>
              Deleted(rows, plan)[i] in plan && Deleted(rows, plan)[i].path in rows
              && Deleted(rows, plan)[i].path !in DeleteAll(rows, plan)
    decreases |plan|
  {
    if plan != [] {
      var e := plan[0];
      var rows1 := if Matches(rows, e) then rows - {e.path} else rows;
      DeletedIs(rows1, plan[1..]);
      DeleteAllIs(rows1, plan[1..]);
      var d := Deleted(rows1, plan[1..]);
      forall i | 0 <= i < |d| ensures d[i] in plan { assert d[i] in plan[1..]; }
    }
  }

  function Reconciled(s: State, plan: seq<Entry>): State {
    s.(rows := DeleteAll(s.rows, plan), disk := RemoveBackings(s.disk, Deleted(s.rows, plan)))
  }

  /** On the mount: a stale row's path shows the base again, every other path is unchanged. */
  lemma ReconcileOnView(base: Base, s: State, plan: seq<Entry>, p: string)
    requires Inv(s) && PlanOf(base.nodes, s.rows, plan)
    ensures Inv(Reconciled(s, plan))
    ensures Reconciled(s, plan).rows == Kept(base.nodes, s.rows)
    ensures View(base, Reconciled(s, plan), p)
         == if p in s.rows && Stale(base.nodes, s.rows, s.rows[p]) then BaseObj(base, p) else View(base, s, p)
  {
    RowsAreKeyed(s);
    UndisturbedDelete(base.nodes, s.rows, plan);
    DeletedIs(s.rows, plan);
    RemoveBackingsKeeps(s.disk, Deleted(s.rows, plan));
    KeptBackings(s, Reconciled(s, plan), Deleted(s.rows, plan), plan);
  }

  lemma RowsAreKeyed(s: State)
    requires Inv(s)
    ensures Keyed(s.rows)
  {
    forall q | q in s.rows ensures s.rows[q].path == q && q != "" { assert RowOk(s.disk, q, s.rows[q]); }
  }

  /** Rows that stay keep their backing files, because only dropped rows' files go. */
  lemma KeptBackings(s: State, s': State, dropped: seq<Entry>, plan: seq<Entry>)
    requires Inv(s) && forall i :: 0 <= i < |plan| ==> plan[i].path in s.rows && plan[i] == s.rows[plan[i].path]
    requires forall i :: 0 <= i < |dropped| ==> dropped[i] in plan && dropped[i].path !in s'.rows
    requires forall q :: q in s'.rows ==> q in s.rows && s'.rows[q] == s.rows[q]
    requires forall q :: q in s.disk && (forall i :: 0 <= i < |dropped| ==> dropped[i].backing != q) ==> q in s'.disk && s'.disk[q] == s.disk[q]
    ensures forall q :: q in s'.rows ==> RowOk(s'.disk, q, s'.rows[q]) && RowObj(s'.disk, s'.rows[q]) == RowObj(s.disk, s.rows[q])
  {
    forall q | q in s'.rows
      ensures RowOk(s'.disk, q, s'.rows[q]) && RowObj(s'.disk, s'.rows[q]) == RowObj(s.disk, s.rows[q])
    {
      assert RowOk(s.disk, q, s.rows[q]);
      forall i | 0 <= i < |dropped| ensures dropped[i].backing != q {
        assert dropped[i] in plan && RowOk(s.disk, dropped[i].path, s.rows[dropped[i].path]);
      }
    }
  }

  // ---- rename chains ----

  /** The source a chain starting at row e stands for. */
  function FirstSource(e: Entry): string {
    if e.kind == Rename && e.target != "" then e.target else e.path
  }

  predicate SameRow(rows: Rows, t: Rows, p: string) {
    (p in t <==> p in rows) && (p in rows ==> t[p] == rows[p])
  }

  /** Link i of a chain renames chain[i] to chain[i + 1]; whatever else happens before the next link
      leaves the rows along the chain alone. */
  ghost predicate Link(s: State, next: State, chain: seq<string>, i: nat, io: Faults)
    requires i + 1 < |chain|
  {
    var (s', r) := RenameRow(s, chain[i], chain[i + 1], io);
    && r.Ok? && chain[i] != chain[i + 1] && chain[i + 1] != "" && Keyed(s.rows)
    && forall j :: 0 <= j <= i + 1 ==> SameRow(s'.rows, next.rows, chain[j])
  }

  /** Renaming along chain[0], chain[1], ...; link i starts in state at[i]. */
  ghost predicate ChainRuns(chain: seq<string>, at: seq<State>, io: seq<Faults>) {
    && |chain| >= 2 && |at| == |chain| && |io| == |chain| - 1
    && forall i :: 0 <= i < |io| ==> Link(at[i], at[i + 1], chain, i, io[i])
  }

  /** One link: row p becomes a rename row at q and a whiteout at p, both naming e's source. */
  lemma LinkRows(s: State, p: string, q: string, io: Faults)
    requires p != q && Keyed(s.rows) && p in s.rows && q != "" && RenameRow(s, p, q, io).1.Ok?
    requires s.rows[p].kind == Modify || s.rows[p].kind == Rename
    ensures var e, t := s.rows[p], RenameRow(s, p, q, io).0.rows;
            && q !in s.rows && FirstSource(e) != ""
            && q in t && t[q].kind == Rename && t[q].path == q && t[q].target == FirstSource(e) && t[q].oid == e.oid
            && p in t && t[p].kind == Delete && t[p].path == p && t[p].target == FirstSource(e)
            && forall r :: r != p && r != q ==> SameRow(s.rows, t, r)
  {
    assert RenameRow(s, p, q, io).0.rows == RenamedRows(s.rows, p, q, s.clock);
    RenamedRowsAre(s.rows, p, q, s.clock);
  }

  /** Rows along the first k links: a live end that stands for the source, and whiteouts behind it. */
  predicate ChainRows(t: Rows, chain: seq<string>, k: nat, source: string, oid: string)
    requires k < |chain|
  {
    var last := chain[k];
    && last in t && (t[last].kind == Modify || t[last].kind == Rename)
    && FirstSource(t[last]) == source && t[last].oid == oid
    && (k > 0 ==> t[last].kind == Rename && t[last].target == source)
    && forall i :: 0 <= i < k ==>
         chain[i] in t && t[chain[i]].kind == Delete && t[chain[i]].path == chain[i] && t[chain[i]].target == source
  }

  lemma ChainStep(s: State, next: State, chain: seq<string>, k: nat, io: Faults, source: string, oid: string)
    requires 0 < k < |chain| && Link(s, next, chain, k - 1, io) && ChainRows(s.rows, chain, k - 1, source, oid)
    ensures ChainRows(next.rows, chain, k, source, oid) && forall i :: 0 <= i < k ==> chain[i] != chain[k]
  {
    LinkRows(s, chain[k - 1], chain[k], io);
    ChainGrows(s.rows, RenameRow(s, chain[k - 1], chain[k], io).0.rows, next.rows, chain, k, source, oid);
  }

  /** However long the chain, and whatever happens on other paths between its links, its live end and
      every whiteout along it name the first base path.  No path occurs twice. */
  lemma {:induction false} ChainKeepsSource(chain: seq<string>, at: seq<State>, io: seq<Faults>, k: nat)
    requires ChainRuns(chain, at, io) && k < |chain| && chain[0] in at[0].rows
    requires at[0].rows[chain[0]].kind == Modify || at[0].rows[chain[0]].kind == Rename
    ensures ChainRows(at[k].rows, chain, k, FirstSource(at[0].rows[chain[0]]), at[0].rows[chain[0]].oid)
    ensures forall i :: 0 <= i < k ==> chain[i] != chain[k]
  {
    if k > 0 {
      ChainKeepsSource(chain, at, io, k - 1);
      ChainStep(at[k - 1], at[k], chain, k, io[k - 1], FirstSource(at[0].rows[chain[0]]), at[0].rows[chain[0]].oid);
    }
  }

  lemma ChainGrows(rows: Rows, moved: Rows, t: Rows, chain: seq<string>, k: nat, source: string, oid: string)
    requires 0 < k < |chain| && ChainRows(rows, chain, k - 1, source, oid)
    requires forall j :: 0 <= j <= k ==> SameRow(moved, t, chain[j])
    requires chain[k] !in rows && chain[k] in moved && source != ""
    requires moved[chain[k]].kind == Rename && moved[chain[k]].target == source && moved[chain[k]].oid == oid
    requires var p := chain[k - 1]; p in moved && moved[p].kind == Delete && moved[p].path == p && moved[p].target == source
    requires forall r :: r != chain[k - 1] && r != chain[k] ==> SameRow(rows, moved, r)
    ensures ChainRows(t, chain, k, source, oid) && forall i :: 0 <= i < k ==> chain[i] != chain[k]
  {
    assert SameRow(moved, t, chain[k]);
    forall i | 0 <= i < k
      ensures chain[i] != chain[k]
      ensures chain[i] in t && t[chain[i]].kind == Delete && t[chain[i]].path == chain[i] && t[chain[i]].target == source
    {
      assert SameRow(moved, t, chain[i]) && chain[i] in rows;
      if chain[i] != chain[k - 1] { assert SameRow(rows, moved, chain[i]); }
    }
  }

  /** Against a base where the first path still has the row's object the moved file survives; against any
      other base the whole chain goes, and the base shows at every path along it.  A whiteout along it stays
      exactly when the base has its path and no rename of that path or of the first one has gone stale. */
  lemma ChainReconciles(nodes: Nodes, chain: seq<string>, at: seq<State>, io: seq<Faults>)
    requires ChainRuns(chain, at, io) && chain[0] in at[0].rows
    requires at[0].rows[chain[0]].kind == Modify || at[0].rows[chain[0]].kind == Rename
    ensures var e, n := at[0].rows[chain[0]], |chain| - 1;
            var kept := Kept(nodes, at[n].rows);
            && (chain[n] in kept <==> SameOid(nodes, FirstSource(e), e.oid))
            && (chain[n] !in kept ==> forall i :: 0 <= i <= n ==> chain[i] !in kept)
            && forall i :: 0 <= i < n ==>
                 (chain[i] in kept <==> chain[i] in nodes && !StaleSource(nodes, at[n].rows, chain[i])
                                        && !StaleSource(nodes, at[n].rows, FirstSource(e)))
  {
    var n := |chain| - 1;
    ChainKeepsSource(chain, at, io, n);
    ChainGoesTogether(nodes, at[n].rows, chain, FirstSource(at[0].rows[chain[0]]), at[0].rows[chain[0]].oid);
  }

  lemma ChainGoesTogether(nodes: Nodes, t: Rows, chain: seq<string>, source: string, oid: string)
    requires |chain| >= 2 && ChainRows(t, chain, |chain| - 1, source, oid)
    ensures chain[|chain| - 1] in Kept(nodes, t) <==> SameOid(nodes, source, oid)
    ensures chain[|chain| - 1] !in Kept(nodes, t) ==> forall i :: 0 <= i < |chain| ==> chain[i] !in Kept(nodes, t)
    ensures forall i :: 0 <= i < |chain| - 1 ==>
              (chain[i] in Kept(nodes, t) <==> chain[i] in nodes && !StaleSource(nodes, t, chain[i]) && !StaleSource(nodes, t, source))
  {
    var last := chain[|chain| - 1];
    assert RenameSource(t[last]) == source;
    if !SameOid(nodes, source, oid) {
      assert StaleRename(nodes, t[last]) && StaleSource(nodes, t, source);
    }
  }

  const A_MOVED: Rows := map["a" := Whiteout("a", 1, "a"), "b" := Entry("b", Rename, "b", 420, 3, 0, 1, "oid", "a")]
  const A_CHANGED: Nodes := map["a" := BaseNode(TFile, 420, "oid2")]

  /** After "mv a b" a commit changes a: the whiteout at a goes with the rename, although a is in the base. */
  lemma WhiteoutGoesWithRename()
    ensures "a" in A_CHANGED && IsDeleted(A_MOVED["a"]) && "a" !in Kept(A_CHANGED, A_MOVED)
  {
    assert StaleRename(A_CHANGED, A_MOVED["b"]);
  }

  /** A write after the rename breaks this: the row becomes a plain "modify" of its new path, so
      a reconcile keeps it exactly when the base has the same object there. */
  lemma WrittenRename(nodes: Nodes, s: State, p: string, off: int, data: Bytes, io: Faults)
    requires Keyed(s.rows) && p in s.rows && s.rows[p].kind == Rename
    requires WriteFile(s, p, off, data, io).1.Ok?
    ensures p in Kept(nodes, WriteFile(s, p, off, data, io).0.rows) <==> SameOid(nodes, p, s.rows[p].oid)
  {
  }

  /** In a table that holds a rename from a to b and nothing else, an edit of b goes with the next
      reconcile against a base that still has a, and a stays hidden. */
  lemma EditGoes(nodes: Nodes, s: State, a: string, b: string, off: int, data: Bytes, io: Faults)
    requires Keyed(s.rows) && a != b && s.rows.Keys == {a, b} && WriteFile(s, b, off, data, io).1.Ok?
    requires s.rows[a].kind == Delete && s.rows[b].kind == Rename && RenameSource(s.rows[b]) == a
    requires SameOid(nodes, a, s.rows[b].oid) && !SameOid(nodes, b, s.rows[b].oid)
    ensures var t := WriteFile(s, b, off, data, io).0.rows;
            b in Kept(nodes, s.rows) && b !in Kept(nodes, t) && a in Kept(nodes, t)
  {
    WrittenRename(nodes, s, b, off, data, io);
    var t := WriteFile(s, b, off, data, io).0.rows;
    forall r | r in t ensures !StaleRename(nodes, t[r]) {}
  }

  /** "mv a b", an edit of b, and a reconcile against the very same base: the edit is gone and a
      stays hidden. */
  lemma WrittenRenameIsLost()
    ensures var s := State(A_MOVED, map["b" := FileNode(BLOB)], 2);
            var written := WriteFile(s, "b", 0, [9], map[]);
            && Inv(s) && written.1.Ok?
            && "b" in Kept(ONE_FILE.nodes, A_MOVED)
            && "b" !in Kept(ONE_FILE.nodes, written.0.rows)
            && "a" in Kept(ONE_FILE.nodes, written.0.rows)
  {
    MovedIs();
    EditGoes(ONE_FILE.nodes, State(A_MOVED, map["b" := FileNode(BLOB)], 2), "a", "b", 0, [9], map[]);
  }

  lemma MovedIs()
    ensures "a" != "b" && A_MOVED.Keys == {"a", "b"} && "b" !in ONE_FILE.nodes
    ensures var s := State(A_MOVED, map["b" := FileNode(BLOB)], 2);
            Inv(s) && Keyed(A_MOVED) && WriteFile(s, "b", 0, [9], map[]).1.Ok?
  {
    assert "a"[0] == 'a' && "b"[0] == 'b';
  }
}
