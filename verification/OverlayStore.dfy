/** overlay.Store: the row table and the upper directory, changed in place.  Transactions, restore
    statements and loops are written as the store runs them; each method is tied to the operation
    of OverlayState it performs. */
module OverlayStore {
  import opened Wrappers
  import opened Paths
  import opened OverlayState
  import opened SortedPaths
  import R = ReconcileSpec

  class Store {
    var rows: Rows
    var disk: Disk
    var clock: nat

    constructor ()
      ensures rows == map[] && disk == map["." := DirNode] && clock == 0 && Inv(St())
    {
      rows, disk, clock := map[], map["." := DirNode], 0;
    }

    ghost function St(): State
      reads this
    {
      State(rows, disk, clock)
    }

    method Now() returns (now: nat)
      modifies this`clock
      ensures now == old(clock) && clock == now + 1
    {
      now := clock;
      clock := clock + 1;
    }

    method EnsureCopyOnWrite(path: string, base: BaseNode, cached: Option<Bytes>, io: Faults) returns (r: Result)
      modifies this
      ensures (St(), r) == OverlayState.EnsureCopyOnWrite(old(St()), CleanPath(path), base, cached, io)
    {
      var p := CleanPath(path);
      if p in rows && !IsDeleted(rows[p]) { return Ok; }
      var dirs := MkdirAll(disk, Dir(p));
      if SysMkdirAll in io || dirs.None? { return Fail(ErrOf(io, SysMkdirAll)); }
      disk := dirs.value;
      var tmp := p + ".tmp";
      var scratch := WriteEmpty(disk, tmp);
      if SysWriteFile in io || scratch.None? { return Fail(ErrOf(io, SysWriteFile)); }
      disk := scratch.value;
      r := CommitCopy(p, tmp, base, cached, io);
    }

    method CommitCopy(p: string, tmp: string, base: BaseNode, cached: Option<Bytes>, io: Faults) returns (r: Result)
      requires p != tmp
      modifies this
      ensures (St(), r) == OverlayState.CommitCopy(old(St()), p, tmp, base, cached, io)
    {
      // A cache file that is not there leaves the scratch file empty.
      var bytes: Bytes := [];
      if base.oid != "" && cached.Some? {
        if SysCopy in io {
          disk := disk - {tmp};
          return Fail(ErrIO);
        }
        bytes := cached.value;
      }
      disk := disk[tmp := FileNode(bytes)];
      var moved := Move(disk, tmp, p);
      if SysRename in io || moved.None? { return Fail(ErrOf(io, SysRename)); }
      disk := moved.value;
      var now := Now();
      if SysDB in io { return Fail(ErrIO); }
      rows := rows[p := Entry(p, Modify, p, base.mode, |disk[p].bytes|, now, now, base.oid, "")];
      return Ok;
    }

    method CreateFile(path: string, mode: nat, io: Faults) returns (r: Result)
      modifies this
      ensures (St(), r) == OverlayState.CreateFile(old(St()), CleanPath(path), mode, io)
    {
      var p := CleanPath(path);
      var dirs := MkdirAll(disk, Dir(p));
      if SysMkdirAll in io || dirs.None? { return Fail(ErrOf(io, SysMkdirAll)); }
      disk := dirs.value;
      var empty := WriteEmpty(disk, p);
      if SysWriteFile in io || empty.None? { return Fail(ErrOf(io, SysWriteFile)); }
      disk := empty.value;
      var now := Now();
      if SysDB in io { return Fail(ErrIO); }
      rows := rows[p := Entry(p, Create, p, mode, 0, now, now, "", "")];
      return Ok;
    }

    method WriteFile(path: string, off: int, data: Bytes, io: Faults) returns (r: Result)
      modifies this
      ensures (St(), r) == OverlayState.WriteFile(old(St()), CleanPath(path), off, data, io)
    {
      var p := CleanPath(path);
      if p !in rows || IsDeleted(rows[p]) { return Fail(ErrNotExist); }
      var e := rows[p];
      if SysOpen in io || (e.backing in disk && disk[e.backing].DirNode?) { return Fail(ErrOf(io, SysOpen)); }
      if e.backing !in disk { disk := disk[e.backing := FileNode([])]; }
      assert disk == old(disk)[e.backing := disk[e.backing]];
      if off < 0 || SysWriteAt in io { return Fail(ErrOf(io, SysWriteAt)); }
      var bytes := Splice(disk[e.backing].bytes, off, data);
      disk := disk[e.backing := FileNode(bytes)];
      var now := Now();
      e := e.(size := |bytes|, mtime := now, ctime := now);
      if e.kind != Create { e := e.(kind := Modify); }
      if SysDB in io { return Fail(ErrIO); }
      rows := rows[p := e];
      return Ok;
    }

    method Truncate(path: string, size: int, io: Faults) returns (r: Result)
      modifies this
      ensures (St(), r) == OverlayState.Truncate(old(St()), CleanPath(path), size, io)
    {
      var p := CleanPath(path);
      if p !in rows || IsDeleted(rows[p]) { return Fail(ErrNotExist); }
      var e := rows[p];
      if SysTruncate in io || size < 0 || e.backing !in disk || disk[e.backing].DirNode? {
        return Fail(ErrOf(io, SysTruncate));
      }
      disk := disk[e.backing := FileNode(Resize(disk[e.backing].bytes, size))];
      var now := Now();
      e := e.(size := size, mtime := now, ctime := now);
      if e.kind != Create { e := e.(kind := Modify); }
      if SysDB in io { return Fail(ErrIO); }
      rows := rows[p := e];
      return Ok;
    }

    method Remove(path: string, io: Faults) returns (r: Result)
      modifies this
      ensures (St(), r) == OverlayState.Remove(old(St()), CleanPath(path), io)
    {
      var p := CleanPath(path);
      if p in rows && rows[p].backing != "" && SysRemove !in io {
        disk := RemoveNode(disk, rows[p].backing);
      }
      var now := Now();
      if SysDB in io { return Fail(ErrIO); }
      rows := rows[p := Entry(p, Delete, "", 0, 0, now, now, "", "")];
      return Ok;
    }

    method Mkdir(path: string, mode0: nat, io: Faults) returns (r: Result)
      modifies this
      ensures (St(), r) == OverlayState.MkdirRow(old(St()), CleanPath(path), mode0, io)
    {
      r := MkdirAs(CleanPath(path), NormalizeGitDirMode(mode0), GitDirMode(mode0), io);
    }

    method MkdirAs(p: string, mode: nat, normalized: bool, io: Faults) returns (r: Result)
      modifies this
      ensures (St(), r) == OverlayState.MkdirAs(old(St()), p, mode, normalized, io)
    {
      var dirs := MkdirAll(disk, p);
      if SysMkdirAll in io || dirs.None? { return Fail(ErrOf(io, SysMkdirAll)); }
      disk := dirs.value;
      if normalized && SysChmod in io { return Fail(io[SysChmod]); }
      var now := Now();
      if SysDB in io { return Fail(ErrIO); }
      rows := rows[p := Entry(p, Kind.Mkdir, p, mode, 0, now, now, "", "")];
      return Ok;
    }

    /** SELECT of the given rows ORDER BY path */
    method Select(paths: set<string>) returns (out: seq<Entry>)
      requires paths <= rows.Keys
      ensures |out| == |Sorted(paths)| && forall i :: 0 <= i < |out| ==> out[i] == rows[Sorted(paths)[i]]
    {
      var sorted := Sorted(paths);
      out := [];
      for i := 0 to |sorted|
        invariant |out| == i && forall j :: 0 <= j < i ==> out[j] == rows[sorted[j]]
      {
        assert sorted[i] in sorted;
        out := out + [rows[sorted[i]]];
      }
    }

    method FindOverlayDescendant(dir: string) returns (found: bool)
      ensures found == HasOverlayDescendants(rows, dir)
    {
      var live := set p | p in rows && !IsDeleted(rows[p]);
      var sorted := Sorted(live);
      for i := 0 to |sorted|
        invariant forall j :: 0 <= j < i ==> !Below(sorted[j], dir)
      {
        assert sorted[i] in sorted;
        if Below(sorted[i], dir) { return true; }
      }
      forall p | p in rows && !IsDeleted(rows[p]) ensures !Below(p, dir) {
        assert p in sorted;
      }
      return false;
    }

    /** The statements that put the table back after a failed move: drop the new row, reinstate
        the old one and every whiteout the transaction had dropped. */
    method Restore(p: string, q: string, e: Entry, dropped: seq<Entry>)
      modifies this`rows
      ensures rows == PutAll((old(rows) - {q})[p := e], dropped)
    {
      rows := rows - {q};
      rows := rows[p := e];
      assert dropped[0..] == dropped;
      for i := 0 to |dropped|
        invariant PutAll(rows, dropped[i..]) == PutAll((old(rows) - {q})[p := e], dropped)
      {
        assert dropped[i..][0] == dropped[i] && dropped[i..][1..] == dropped[i + 1..];
        rows := rows[dropped[i].path := dropped[i]];
      }
    }

    method Rename(oldPath: string, newPath: string, io: Faults) returns (r: Result)
      requires R.Keyed(rows)
      modifies this
      ensures (St(), r) == RenameRow(old(St()), CleanPath(oldPath), CleanPath(newPath), io)
      ensures r.Fail? ==> rows == old(rows)
    {
      var p, q := CleanPath(oldPath), CleanPath(newPath);
      if p !in rows || IsDeleted(rows[p]) { return Fail(ErrNotExist); }
      var e := rows[p];
      if p == q { return Ok; }
      var dirs := MkdirAll(disk, Dir(q));
      if SysMkdirAll in io || dirs.None? { return Fail(ErrOf(io, SysMkdirAll)); }
      disk := dirs.value;
      var dropped: seq<Entry> := [];
      if e.kind == Kind.Mkdir {
        var hasDescendants := FindOverlayDescendant(p);
        if hasDescendants { return Fail(ErrInvalid); }
        dropped := Select(DeletedDescendants(rows, p));
      }
      r := CommitRename(p, q, dropped, io);
    }

    /** The statements of the transaction, on a copy of the table: none when the insert conflicts. */
    method RenameTx(p: string, q: string, now: nat) returns (tx: Option<Rows>)
      requires p in rows && !IsDeleted(rows[p]) && p != q && rows[p].path == p
      ensures tx == if q in rows then None else Some(RenamedRows(rows, p, q, now))
    {
      var e := rows[p];
      var kind, target, mode, writeSourceWhiteout := Kind.Rename, p, e.mode, true;
      if e.kind == Kind.Rename && e.target != "" { target := e.target; }
      match e.kind {
        case Create => kind, target, writeSourceWhiteout := e.kind, "", false;
        case Symlink => kind, target, writeSourceWhiteout := e.kind, "", false;
        case Mkdir =>
          kind, target, writeSourceWhiteout := e.kind, "", false;
          mode := NormalizeGitDirMode(mode);
        case _ =>
      }
      var t := rows - {p};
      if q in t { return None; }
      t := t[q := e.(path := q, kind := kind, backing := q, mode := mode, ctime := now, target := target)];
      assert t == (rows - {p})[q := RenamedEntry(e, q, now)];
      if e.kind == Kind.Mkdir { t := t - DeletedDescendants(t, p); }
      if writeSourceWhiteout { t := t[p := Whiteout(p, now, target)]; }
      return Some(t);
    }

    /** Giving up the transaction leaves the table as it was.  The move of the backing file comes
        after the commit, and its failure undoes the commit. */
    method CommitRename(p: string, q: string, dropped: seq<Entry>, io: Faults) returns (r: Result)
      requires R.Keyed(rows) && p in rows && !IsDeleted(rows[p]) && p != q && Dropped(rows, p, dropped)
      modifies this
      ensures (St(), r) == OverlayState.CommitRename(old(St()), p, q, io)
      ensures r.Fail? ==> rows == old(rows)
    {
      var e := rows[p];
      var now := Now();
      var tx := RenameTx(p, q, now);
      if SysDB in io || tx.None? { return Fail(ErrIO); }
      rows := tx.value;
      if e.backing != "" {
        var moved := Move(disk, e.backing, q);
        if SysRename in io || moved.None? {
          Restore(p, q, e, dropped);
          RestoredIsOld(old(rows), p, q, now, dropped);
          return Fail(ErrOf(io, SysRename));
        }
        disk := moved.value;
        if e.kind == Kind.Mkdir && GitDirMode(e.mode) && SysChmod in io {
          Restore(p, q, e, dropped);
          RestoredIsOld(old(rows), p, q, now, dropped);
          var back := Move(disk, q, e.backing);
          if SysRenameBack !in io && back.Some? { disk := back.value; }
          return Fail(io[SysChmod]);
        }
      }
      return Ok;
    }

    method RenameAndMarkModifiedFromBase(oldPath: string, newPath: string, sourceOID: string, io: Faults) returns (r: Result)
      modifies this
      ensures (St(), r) == RenameAndMark(old(St()), CleanPath(oldPath), CleanPath(newPath), sourceOID, io)
      ensures r.Fail? ==> rows == old(rows)
    {
      var p, q := CleanPath(oldPath), CleanPath(newPath);
      if p !in rows || IsDeleted(rows[p]) { return Fail(ErrNotExist); }
      var e := rows[p];
      if p == q {
        if SysDB in io { return Fail(ErrIO); }
        rows := rows[p := e.(kind := Modify, oid := sourceOID, target := "")];
        return Ok;
      }
      var dirs := MkdirAll(disk, Dir(q));
      if SysMkdirAll in io || dirs.None? { return Fail(ErrOf(io, SysMkdirAll)); }
      disk := dirs.value;
      r := CommitMarked(p, q, sourceOID, io);
    }

    method CommitMarked(p: string, q: string, sourceOID: string, io: Faults) returns (r: Result)
      requires p in rows && p != q
      modifies this
      ensures (St(), r) == OverlayState.CommitMarked(old(St()), p, q, sourceOID, io)
      ensures r.Fail? ==> rows == old(rows)
    {
      var e := rows[p];
      var now := Now();
      var tx := rows - {p};
      if q in tx { return Fail(ErrIO); }
      tx := tx[q := e.(path := q, kind := Modify, backing := q, ctime := now, oid := sourceOID, target := "")];
      if SysDB in io { return Fail(ErrIO); }
      rows := tx;
      if e.backing != "" {
        var moved := Move(disk, e.backing, q);
        if SysRename in io || moved.None? {
          rows := rows - {q};
          rows := rows[p := e];
          UndoIsOld(old(rows), p, q, tx[q]);
          return Fail(ErrOf(io, SysRename));
        }
        disk := moved.value;
      }
      return Ok;
    }

    method SetMtime(path: string, t: int, io: Faults) returns (r: Result)
      modifies this
      ensures (St(), r) == OverlayState.SetMtime(old(St()), CleanPath(path), t, io)
    {
      var p := CleanPath(path);
      if p in rows && rows[p].kind == Kind.Mkdir && GitDirMode(rows[p].mode) {
        if SysChmod in io { return Fail(io[SysChmod]); }
        var now := Now();
        if SysDB in io { return Fail(ErrIO); }
        rows := rows[p := rows[p].(mode := NormalizeGitDirMode(rows[p].mode), mtime := t, ctime := now)];
        return Ok;
      }
      var now := Now();
      if SysDB in io { return Fail(ErrIO); }
      if p in rows { rows := rows[p := rows[p].(mtime := t, ctime := now)]; }
      return Ok;
    }

    /** The first half of Reconcile: read the table and list what to remove, renames and modified
        files first, then whiteouts, created files and directories. */
    method Plan(nodes: R.Nodes) returns (toRemove: seq<Entry>)
      requires R.Keyed(rows)
      ensures R.PlanOf(nodes, rows, toRemove)
    {
      var entries := Select(rows.Keys);
      assert AllRows(rows, entries) by { SelectedAll(rows, entries); }
      var staleRenameSources: set<string>;
      toRemove, staleRenameSources := FirstPass(nodes, entries);
      toRemove := SecondPass(nodes, entries, toRemove, staleRenameSources);
      PassesCover(nodes, rows, entries, toRemove);
    }

    method FirstPass(nodes: R.Nodes, entries: seq<Entry>) returns (toRemove: seq<Entry>, staleRenameSources: set<string>)
      requires AllRows(rows, entries)
      ensures forall j :: 0 <= j < |toRemove| ==> Planned(nodes, rows, toRemove[j])
      ensures forall j :: 0 <= j < |entries| && Own(entries[j]) && R.Stale(nodes, rows, entries[j]) ==> entries[j] in toRemove
      ensures forall x :: x in staleRenameSources <==> R.StaleSource(nodes, rows, x)
    {
      toRemove, staleRenameSources := [], {};
      for i := 0 to |entries|
        invariant forall j :: 0 <= j < |toRemove| ==> Planned(nodes, rows, toRemove[j])
        invariant forall j :: 0 <= j < i && Own(entries[j]) && R.Stale(nodes, rows, entries[j]) ==> entries[j] in toRemove
        invariant forall x :: x in staleRenameSources ==> R.StaleSource(nodes, rows, x)
        invariant forall j :: 0 <= j < i && R.StaleRename(nodes, entries[j]) ==> R.RenameSource(entries[j]) in staleRenameSources
      {
        var e := entries[i];
        match e.kind {
          case Modify =>
            if e.path !in nodes || e.oid != nodes[e.path].oid { toRemove := toRemove + [e]; }
          case Rename =>
            var sourcePath := e.target;
            if sourcePath == "" { sourcePath := e.path; }
            if sourcePath !in nodes || e.oid != nodes[sourcePath].oid {
              assert R.StaleRename(nodes, rows[e.path]);
              toRemove := toRemove + [e];
              staleRenameSources := staleRenameSources + {sourcePath};
            }
          case _ =>
        }
      }
      SourcesCover(nodes, rows, entries, staleRenameSources);
    }

    method SecondPass(nodes: R.Nodes, entries: seq<Entry>, first: seq<Entry>, staleRenameSources: set<string>)
      returns (toRemove: seq<Entry>)
      requires AllRows(rows, entries)
      requires forall j :: 0 <= j < |first| ==> Planned(nodes, rows, first[j])
      requires forall x :: x in staleRenameSources <==> R.StaleSource(nodes, rows, x)
      ensures forall x :: x in first ==> x in toRemove
      ensures forall j :: 0 <= j < |toRemove| ==> Planned(nodes, rows, toRemove[j])
      ensures forall j :: 0 <= j < |entries| && !Own(entries[j]) && R.Stale(nodes, rows, entries[j]) ==> entries[j] in toRemove
    {
      toRemove := first;
      for i := 0 to |entries|
        invariant forall x :: x in first ==> x in toRemove
        invariant forall j :: 0 <= j < |toRemove| ==> Planned(nodes, rows, toRemove[j])
        invariant forall j :: 0 <= j < i && !Own(entries[j]) && R.Stale(nodes, rows, entries[j]) ==> entries[j] in toRemove
      {
        var e := entries[i];
        match e.kind {
          case Delete =>
            if e.path in staleRenameSources || e.target in staleRenameSources || e.path !in nodes {
              toRemove := toRemove + [e];
            }
          case Create =>
            if e.path in nodes { toRemove := toRemove + [e]; }
          case Mkdir =>
            if e.path in nodes && nodes[e.path].typ == TDir { toRemove := toRemove + [e]; }
          case _ =>
        }
      }
    }

    /** The second half: the guarded deletes in one transaction, then the backing files of the rows
        that went, last first. */
    method Commit(toRemove: seq<Entry>, io: Faults) returns (r: Result)
      modifies this
      ensures r.Fail? ==> SysDB in io && St() == old(St())
      ensures r.Ok? ==> St() == R.Reconciled(old(St()), toRemove)
    {
      if toRemove == [] { return Ok; }
      var tx, deleted := GuardedDeletes(toRemove);
      if SysDB in io { return Fail(ErrIO); }
      rows := tx;
      RemoveFiles(deleted);
      return Ok;
    }

    /** The deletes of the transaction, and the rows they hit. */
    method GuardedDeletes(toRemove: seq<Entry>) returns (tx: Rows, deleted: seq<Entry>)
      ensures tx == R.DeleteAll(rows, toRemove) && deleted == R.Deleted(rows, toRemove)
    {
      tx, deleted := rows, [];
      assert toRemove[0..] == toRemove;
      for i := 0 to |toRemove|
        invariant R.DeleteAll(tx, toRemove[i..]) == R.DeleteAll(rows, toRemove)
        invariant deleted + R.Deleted(tx, toRemove[i..]) == R.Deleted(rows, toRemove)
      {
        var e := toRemove[i];
        assert toRemove[i..][0] == e && toRemove[i..][1..] == toRemove[i + 1..];
        if R.Matches(tx, e) {
          tx := tx - {e.path};
          deleted := deleted + [e];
        }
      }
    }

    method RemoveFiles(deleted: seq<Entry>)
      modifies this`disk
      ensures disk == R.RemoveBackings(old(disk), deleted)
    {
      assert deleted[..|deleted|] == deleted;
      for i := |deleted| downto 0
        invariant R.RemoveBackings(disk, deleted[..i]) == R.RemoveBackings(old(disk), deleted)
      {
        assert deleted[..i + 1][|deleted[..i + 1]| - 1] == deleted[i] && deleted[..i + 1][..i] == deleted[..i];
        if deleted[i].backing != "" { disk := RemoveNode(disk, deleted[i].backing); }
      }
    }

    /** Reconcile with nothing in between removes exactly the stale rows. */
    method Reconcile(nodes: R.Nodes, io: Faults) returns (r: Result)
      requires R.Keyed(rows)
      modifies this
      ensures r.Fail? ==> St() == old(St())
      ensures r.Ok? ==> rows == R.Kept(nodes, old(rows))
    {
      var toRemove := Plan(nodes);
      R.UndisturbedDelete(nodes, rows, toRemove);
      r := Commit(toRemove, io);
    }

    /** How many rows are no whiteouts; none exactly when the overlay only hides. */
    method DirtyCount() returns (n: nat)
      ensures n == |LiveRows(rows)|
      ensures n + |Whiteouts(rows)| == |rows|
      ensures n == 0 <==> forall p :: p in rows ==> IsDeleted(rows[p])
    {
      n := |set p | p in rows && !IsDeleted(rows[p])|;
      RowsSplit(rows);
    }
  }

  function LiveRows(rows: Rows): set<string> {
    set p | p in rows && !IsDeleted(rows[p])
  }

  function Whiteouts(rows: Rows): set<string> {
    set p | p in rows && IsDeleted(rows[p])
  }

  lemma RowsSplit(rows: Rows)
    ensures |LiveRows(rows)| + |Whiteouts(rows)| == |rows|
    ensures |LiveRows(rows)| == 0 <==> forall p :: p in rows ==> IsDeleted(rows[p])
  {
    assert LiveRows(rows) + Whiteouts(rows) == rows.Keys && LiveRows(rows) !! Whiteouts(rows);
    forall p | p in rows && !IsDeleted(rows[p]) ensures |LiveRows(rows)| > 0 { assert p in LiveRows(rows); }
  }

  /** Rows judged by their own base path, in the first pass. */
  predicate Own(e: Entry) { e.kind == Modify || e.kind == Rename }

  predicate Planned(nodes: R.Nodes, rows: Rows, e: Entry) {
    e.path in rows && e == rows[e.path] && R.Stale(nodes, rows, e)
  }

  predicate AllRows(rows: Rows, entries: seq<Entry>) {
    && (forall i :: 0 <= i < |entries| ==> entries[i].path in rows && rows[entries[i].path] == entries[i])
    && (forall p :: p in rows ==> exists i :: 0 <= i < |entries| && entries[i] == rows[p])
  }

  lemma SourcesCover(nodes: R.Nodes, rows: Rows, entries: seq<Entry>, sources: set<string>)
    requires AllRows(rows, entries)
    requires forall j :: 0 <= j < |entries| && R.StaleRename(nodes, entries[j]) ==> R.RenameSource(entries[j]) in sources
    ensures forall x :: R.StaleSource(nodes, rows, x) ==> x in sources
  {
    forall r | r in rows && R.StaleRename(nodes, rows[r]) ensures R.RenameSource(rows[r]) in sources {
      var j :| 0 <= j < |entries| && entries[j] == rows[r];
    }
  }

  lemma PassesCover(nodes: R.Nodes, rows: Rows, entries: seq<Entry>, plan: seq<Entry>)
    requires AllRows(rows, entries)
    requires forall j :: 0 <= j < |plan| ==> Planned(nodes, rows, plan[j])
    requires forall j :: 0 <= j < |entries| && R.Stale(nodes, rows, entries[j]) ==> entries[j] in plan
    ensures R.PlanOf(nodes, rows, plan)
  {
    forall p | p in rows && R.Stale(nodes, rows, rows[p]) ensures rows[p] in plan {
      var j :| 0 <= j < |entries| && entries[j] == rows[p];
    }
    forall j | 0 <= j < |plan| ensures plan[j].path in rows && plan[j] == rows[plan[j].path] && R.Stale(nodes, rows, plan[j]) {
      assert Planned(nodes, rows, plan[j]);
    }
  }

  lemma SelectedAll(rows: Rows, entries: seq<Entry>)
    requires R.Keyed(rows)
    requires |entries| == |Sorted(rows.Keys)| && forall i :: 0 <= i < |entries| ==> entries[i] == rows[Sorted(rows.Keys)[i]]
    ensures AllRows(rows, entries)
  {
    var sorted := Sorted(rows.Keys);
    forall i | 0 <= i < |entries| ensures entries[i].path in rows && rows[entries[i].path] == entries[i] {
      assert sorted[i] in sorted;
    }
    forall p | p in rows ensures exists i :: 0 <= i < |entries| && entries[i] == rows[p] {
      assert p in sorted;
      var i :| 0 <= i < |sorted| && sorted[i] == p;
      assert entries[i] == rows[p];
    }
  }

  function PutAll(rows: Rows, es: seq<Entry>): Rows
    decreases |es|
  {
    if es == [] then rows else PutAll(rows[es[0].path := es[0]], es[1..])
  }

  lemma {:induction false} PutAllBack(rows: Rows, want: Rows, es: seq<Entry>)
    requires forall i :: 0 <= i < |es| ==> es[i].path in want && want[es[i].path] == es[i]
    requires forall p :: p in rows ==> p in want && want[p] == rows[p]
    requires forall p :: p in want && p !in rows ==> exists i :: 0 <= i < |es| && es[i].path == p
    ensures PutAll(rows, es) == want
    decreases |es|
  {
    if es != [] {
      var rows1 := rows[es[0].path := es[0]];
      forall p | p in want && p !in rows1 ensures exists i :: 0 <= i < |es[1..]| && es[1..][i].path == p {
        var i :| 0 <= i < |es| && es[i].path == p;
        assert es[1..][i - 1] == es[i];
      }
      PutAllBack(rows1, want, es[1..]);
    }
  }

  /** The whiteouts below a directory that is being renamed, in order of path. */
  predicate Dropped(rows: Rows, p: string, dropped: seq<Entry>)
    requires p in rows
  {
    var paths := if rows[p].kind == Mkdir then Sorted(DeletedDescendants(rows, p)) else [];
    |dropped| == |paths| && forall i :: 0 <= i < |dropped| ==> paths[i] in rows && dropped[i] == rows[paths[i]]
  }

  lemma DroppedCovers(rows: Rows, p: string, dropped: seq<Entry>)
    requires R.Keyed(rows) && p in rows && Dropped(rows, p, dropped)
    ensures forall i :: 0 <= i < |dropped| ==> dropped[i].path in rows && rows[dropped[i].path] == dropped[i]
    ensures forall r :: r in rows && rows[p].kind == Mkdir && IsDeleted(rows[r]) && Below(r, p) ==>
              exists i :: 0 <= i < |dropped| && dropped[i].path == r
  {
    if rows[p].kind == Mkdir {
      var paths := Sorted(DeletedDescendants(rows, p));
      forall r | r in rows && IsDeleted(rows[r]) && Below(r, p)
        ensures exists i :: 0 <= i < |dropped| && dropped[i].path == r
      {
        assert r in paths;
        var i :| 0 <= i < |paths| && paths[i] == r;
        assert dropped[i].path == r;
      }
    }
  }

  lemma RestoreCovers(before: Rows, t: Rows, p: string, q: string, dropped: seq<Entry>)
    requires p in before && q !in before && p != q
    requires forall i :: 0 <= i < |dropped| ==> dropped[i].path in before && before[dropped[i].path] == dropped[i]
    requires forall r :: r != p && r != q && r in t ==> r in before && t[r] == before[r]
    requires forall r :: r != p && r in before && r !in t ==> exists i :: 0 <= i < |dropped| && dropped[i].path == r
    ensures PutAll((t - {q})[p := before[p]], dropped) == before
  {
    PutAllBack((t - {q})[p := before[p]], before, dropped);
  }

  /** Restoring after the committed transaction of a rename gives back the table before it. */
  lemma RestoredIsOld(before: Rows, p: string, q: string, now: int, dropped: seq<Entry>)
    requires R.Keyed(before) && p in before && !IsDeleted(before[p]) && q !in before && p != q
    requires Dropped(before, p, dropped)
    ensures PutAll((RenamedRows(before, p, q, now) - {q})[p := before[p]], dropped) == before
  {
    DroppedCovers(before, p, dropped);
    RenamedRowsAre(before, p, q, now);
    RestoreCovers(before, RenamedRows(before, p, q, now), p, q, dropped);
  }

  lemma UndoIsOld(before: Rows, p: string, q: string, x: Entry)
    requires p in before && q !in before && p != q
    ensures ((before - {p})[q := x] - {q})[p := before[p]] == before
  {
    assert (before - {p})[q := x] - {q} == before - {p};
    assert (before - {p})[p := before[p]] == before;
  }

  /** One live row goes from p to q and no other row comes alive or dies. */
  lemma LiveMoved(rows: Rows, t: Rows, p: string, q: string)
    requires p in LiveRows(rows) && q !in rows && p != q
    requires q in LiveRows(t) && p !in LiveRows(t)
    requires forall r :: r != p && r != q ==> (r in LiveRows(t) <==> r in LiveRows(rows))
    ensures |LiveRows(t)| == |LiveRows(rows)|
  {
    SwapKeepsSize(LiveRows(rows), LiveRows(t), p, q);
  }

  lemma SwapKeepsSize(a: set<string>, b: set<string>, p: string, q: string)
    requires p in a && q !in a && q in b && p !in b
    requires forall r :: r != p && r != q ==> (r in a <==> r in b)
    ensures |a| == |b|
  {
    assert b == a - {p} + {q};
  }

  /** A rename that succeeds, like one that fails, leaves the number of live rows unchanged. */
  lemma RenameKeepsLiveCount(s: State, p: string, q: string, io: Faults)
    ensures |LiveRows(RenameRow(s, p, q, io).0.rows)| == |LiveRows(s.rows)|
  {
    var t := RenameRow(s, p, q, io).0.rows;
    if t != s.rows {
      assert p in s.rows && p != q && q !in s.rows && t == RenamedRows(s.rows, p, q, s.clock);
      RenamedKeepsLiveCount(s.rows, p, q, s.clock);
    }
  }

  lemma RenamedKeepsLiveCount(rows: Rows, p: string, q: string, now: int)
    requires p in rows && !IsDeleted(rows[p]) && p != q && q !in rows
    ensures |LiveRows(RenamedRows(rows, p, q, now))| == |LiveRows(rows)|
  {
    RenamedRowsAre(rows, p, q, now);
    LiveMoved(rows, RenamedRows(rows, p, q, now), p, q);
  }

  lemma RenameAndMarkKeepsLiveCount(s: State, p: string, q: string, oid: string, io: Faults)
    ensures |LiveRows(RenameAndMark(s, p, q, oid, io).0.rows)| == |LiveRows(s.rows)|
  {
    var t := RenameAndMark(s, p, q, oid, io).0.rows;
    if t != s.rows {
      if p == q {
        assert LiveRows(t) == LiveRows(s.rows);
      } else {
        assert Live(s.rows, p) && q !in s.rows && q in t && t == (s.rows - {p})[q := t[q]] && !IsDeleted(t[q]);
        ReplacedKeepsLiveCount(s.rows, t, p, q);
      }
    }
  }

  lemma ReplacedKeepsLiveCount(rows: Rows, t: Rows, p: string, q: string)
    requires Live(rows, p) && q !in rows && q in t && t == (rows - {p})[q := t[q]] && !IsDeleted(t[q])
    ensures |LiveRows(t)| == |LiveRows(rows)|
  {
    LiveMoved(rows, t, p, q);
  }
}
