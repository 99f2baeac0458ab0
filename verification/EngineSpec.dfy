/** Engine: the file operations of the mount, over the overlay and one base snapshot, and what
    they mean on the plain map of visible objects. */
module EngineSpec {
  import opened Wrappers
  import opened Paths
  import opened OverlayState
  import opened MergedView

  /** What EnsureHydrated gave: the cache file as copy-on-write finds it, or an error. */
  datatype Hydration = Cached(content: Option<Bytes>) | HydrationFails(err: Err)

  /** The outcomes of calls outside the model during one operation: hydration, the system calls
      of the promotion, and those of the operation proper. */
  datatype Env = Env(hyd: Hydration, promote: Faults, io: Faults)

  function EnsureOverlay(base: Base, s: State, p: string, env: Env): (State, Result) {
    if p in s.rows then (s, Ok)
    else if p !in base.nodes then (s, Fail(ErrNotExist))
    else
      var n := base.nodes[p];
      if n.oid != "" && env.hyd.HydrationFails? then (s, Fail(env.hyd.err))
      else EnsureCopyOnWrite(s, p, n, if env.hyd.Cached? then env.hyd.content else None, env.promote)
  }

  function Write(base: Base, s: State, p: string, off: int, data: Bytes, env: Env): (State, Result) {
    var (s1, r1) := EnsureOverlay(base, s, p, env);
    if r1.Ok? then WriteFile(s1, p, off, data, env.io)
    else if r1.err != ErrNotExist then (s1, r1)
    else
      var (s2, r2) := CreateFile(s1, p, 420, env.io);
      if r2.Fail? then (s2, r2) else WriteFile(s2, p, off, data, env.io)
  }

  function TruncateOp(base: Base, s: State, p: string, size: int, env: Env): (State, Result) {
    var (s1, r1) := EnsureOverlay(base, s, p, env);
    if r1.Fail? then (s1, r1) else Truncate(s1, p, size, env.io)
  }

  /** Engine.SetMtime: a base directory is made in the overlay first, a base file is promoted. */
  function SetMtimeOp(base: Base, s: State, p: string, t: int, env: Env): (State, Result) {
    if p == "." then (s, Fail(ErrInvalid))
    else if p in s.rows then SetMtime(s, p, t, env.io)
    else if p !in base.nodes then (s, Fail(ErrNotExist))
    else if base.nodes[p].typ == TSymlink then (s, Fail(ErrInvalid))
    else
      var (s1, r1) := if base.nodes[p].typ == TDir then MkdirRow(s, p, base.nodes[p].mode, env.promote)
                      else EnsureOverlay(base, s, p, env);
      if r1.Fail? then (s1, r1) else SetMtime(s1, p, t, env.io)
  }

  function RenameOp(base: Base, s: State, p: string, q: string, env: Env): (State, Result) {
    if p == q then (s, if Live(s.rows, p) || (p !in s.rows && p in base.nodes) then Ok else Fail(ErrNotExist))
    else if p in s.rows then
      var e := s.rows[p];
      if IsDeleted(e) then (s, Fail(ErrNotExist))
      else if e.kind == Mkdir && p in base.nodes then (s, Fail(ErrInvalid))
      else if q in base.nodes && (base.nodes[q].typ == TDir || e.kind == Mkdir) then (s, Fail(ErrInvalid))
      else if q in base.nodes && (e.kind == Create || e.kind == Symlink) then
        RenameAndMark(s, p, q, base.nodes[q].oid, env.io)
      else RenameRow(s, p, q, env.io)
    else if p !in base.nodes then (s, Fail(ErrNotExist))
    else if base.nodes[p].typ == TDir then (s, Fail(ErrInvalid))
    else if q in base.nodes && base.nodes[q].typ == TDir then (s, Fail(ErrInvalid))
    else
      var (s1, r1) := EnsureOverlay(base, s, p, env);
      if r1.Fail? then (s1, r1) else RenameRow(s1, p, q, env.io)
  }

  /** readFileChunk */
  function Chunk(b: Bytes, off: nat, size: nat): (r: Bytes)
    ensures |r| <= size && forall i :: 0 <= i < |r| ==> off + i < |b| && r[i] == b[off + i]
  {
    if off >= |b| then [] else b[off..if off + size <= |b| then off + size else |b|]
  }

  /** Engine.Read: the bytes of a row's backing file or of the hydrated base object. */
  function Read(base: Base, s: State, p: string, off: nat, size: nat, hyd: Hydration): Option<Bytes> {
    if p in s.rows then
      var e := s.rows[p];
      if IsDeleted(e) || e.backing !in s.disk || s.disk[e.backing].DirNode? then None
      else Some(Chunk(s.disk[e.backing].bytes, off, size))
    else if p !in base.nodes || hyd.HydrationFails? || hyd.content.None? then None
    else Some(Chunk(hyd.content.value, off, size))
  }

  /** p is a base path with no row: the next change of it copies the base object first. */
  predicate Promotes(base: Base, s: State, p: string) {
    p !in s.rows && p in base.nodes
  }

  /** A hydration that succeeded left the object's bytes in the cache. */
  predicate Honest(base: Base, p: string, hyd: Hydration) {
    p in base.nodes && hyd.Cached? && base.nodes[p].oid in base.objects ==>
      hyd.content == Some(base.objects[base.nodes[p].oid])
  }

  /** The promotion of p fails with "does not exist", which Write takes for a missing file. */
  predicate LosesPromotion(base: Base, s: State, p: string, env: Env) {
    Promotes(base, s, p) && EnsureOverlay(base, s, p, env).1 == Fail(ErrNotExist)
  }

  predicate SafePromotion(base: Base, s: State, p: string, env: Env) {
    Promotes(base, s, p) ==> base.nodes[p].typ == TFile && Honest(base, p, env.hyd) && TmpFree(s, p)
  }

  /** Promotion is invisible: the overlay copy reads as the base object did. */
  lemma EnsureOverlayOnTree(base: Base, s: State, p: string, env: Env)
    requires Inv(s) && BaseOk(base) && p != "" && SafePromotion(base, s, p, env)
    requires EnsureOverlay(base, s, p, env).1.Ok?
    ensures Inv(EnsureOverlay(base, s, p, env).0)
    ensures p in EnsureOverlay(base, s, p, env).0.rows
    ensures Fs(base, EnsureOverlay(base, s, p, env).0) == Fs(base, s)
    ensures EnsureOverlay(base, s, p, env).0.rows - {p} == s.rows - {p}
    ensures p !in s.rows ==> EnsureOverlay(base, s, p, env).0.rows[p].kind == Modify
  {
    if Promotes(base, s, p) {
      var content := if env.hyd.Cached? then env.hyd.content else None;
      CopyOnWriteExact(base, s, p, content, env.promote);
      CopyOnWriteDisk(s, p, base.nodes[p], content, env.promote);
      var s' := EnsureOverlay(base, s, p, env).0;
      assert View(base, s', p) == View(base, s, p);
      forall q ensures View(base, s', q) == View(base, s, q) {
        if q != p && q != p + ".tmp" {}
      }
      FsSame(base, s, s');
    }
  }

  lemma FsSame(base: Base, s: State, s': State)
    requires forall q :: View(base, s', q) == View(base, s, q)
    ensures Fs(base, s') == Fs(base, s)
  {
    forall q ensures q in Fs(base, s') <==> q in Fs(base, s)
      ensures q in Fs(base, s) ==> Fs(base, s')[q] == Fs(base, s)[q]
    {
      FsAt(base, s, q);
      FsAt(base, s', q);
    }
  }

  /** The bytes a path starts from when it is written: none if nothing is visible there. */
  function StartBytes(t: Tree, p: string): Bytes {
    if p in t && (t[p].FileObj? || t[p].LinkObj?) then t[p].bytes else []
  }

  /** A promotion that fails leaves no trace on the mount: whatever it did to the upper directory
      happened at p, which has no row, and at the temporary name, which has no live one. */
  lemma FailedPromotionIsInvisible(base: Base, s: State, p: string, env: Env)
    requires Inv(s) && p != "" && (Promotes(base, s, p) ==> TmpFree(s, p))
    requires EnsureOverlay(base, s, p, env).1.Fail?
    ensures var s1 := EnsureOverlay(base, s, p, env).0;
            && p !in s.rows && s1.rows == s.rows && Inv(s1) && Fs(base, s1) == Fs(base, s)
            && s1.clock >= s.clock && forall q :: View(base, s1, q) == View(base, s, q)
  {
    var s1 := EnsureOverlay(base, s, p, env).0;
    if Promotes(base, s, p) && s1 != s {
      FailedCopyKeeps(s, p, base.nodes[p], if env.hyd.Cached? then env.hyd.content else None, env.promote);
      RowsStay(s, s1.disk, s.rows, {p, p + ".tmp"});
    }
    FsSame(base, s, s1);
  }

  lemma FailedCopyKeeps(s: State, p: string, node: BaseNode, cached: Option<Bytes>, io: Faults)
    requires p !in s.rows && EnsureCopyOnWrite(s, p, node, cached, io).1.Fail?
    ensures var s1 := EnsureCopyOnWrite(s, p, node, cached, io).0;
            s1.rows == s.rows && s1.clock >= s.clock && Keeps(s.disk, s1.disk, {p, p + ".tmp"})
  {
    TmpIsOther(p);
    if !(SysMkdirAll in io) && MkdirAll(s.disk, Dir(p)).Some? {
      MkdirAllKeeps(s.disk, Dir(p));
      var disk1 := MkdirAll(s.disk, Dir(p)).value;
      if !(SysWriteFile in io) && WriteEmpty(disk1, p + ".tmp").Some? {
        FailedCommitKeeps(State(s.rows, WriteEmpty(disk1, p + ".tmp").value, s.clock), p, node, cached, io);
      }
    }
  }

  lemma FailedCommitKeeps(s: State, p: string, node: BaseNode, cached: Option<Bytes>, io: Faults)
    requires p != p + ".tmp" && CommitCopy(s, p, p + ".tmp", node, cached, io).1.Fail?
    ensures var s1 := CommitCopy(s, p, p + ".tmp", node, cached, io).0;
            s1.rows == s.rows && s1.clock >= s.clock && Keeps(s.disk, s1.disk, {p, p + ".tmp"})
  {
  }

  /** When a call of the promotion reports "does not exist", Write takes the base file for a
      missing one: it succeeds, and what is visible starts over from an empty file. */
  lemma WriteAfterLostPromotion(base: Base, s: State, p: string, off: int, data: Bytes, env: Env)
    requires Inv(s) && p != "" && (Promotes(base, s, p) ==> TmpFree(s, p))
    requires EnsureOverlay(base, s, p, env).1 == Fail(ErrNotExist) && Write(base, s, p, off, data, env).1.Ok?
    ensures Inv(Write(base, s, p, off, data, env).0) && off >= 0
    ensures Fs(base, Write(base, s, p, off, data, env).0) == Fs(base, s)[p := FileObj(Splice([], off, data))]
  {
    FailedPromotionIsInvisible(base, s, p, env);
    CreateThenWrite(base, EnsureOverlay(base, s, p, env).0, p, off, data, env.io);
  }

  /** A successful write is the splice on the visible bytes exactly when the promotion was not lost,
      or when nothing of the bytes lost would have shown. */
  lemma WriteOnTree(base: Base, s: State, p: string, off: int, data: Bytes, env: Env)
    requires Inv(s) && BaseOk(base) && p != "" && SafePromotion(base, s, p, env)
    requires Write(base, s, p, off, data, env).1.Ok?
    ensures Inv(Write(base, s, p, off, data, env).0) && off >= 0
    ensures var t, s' := Fs(base, s), Write(base, s, p, off, data, env).0;
            var bytes := StartBytes(t, p);
            Fs(base, s') == t[p := FileObj(Splice(bytes, off, data))] <==>
              !LosesPromotion(base, s, p, env) || Splice(bytes, off, data) == Splice([], off, data)
  {
    var t := Fs(base, s);
    FsAt(base, s, p);
    if EnsureOverlay(base, s, p, env).1.Ok? {
      EnsureOverlayOnTree(base, s, p, env);
      WriteFileOnTree(base, EnsureOverlay(base, s, p, env).0, p, off, data, env.io);
      FsAt(base, EnsureOverlay(base, s, p, env).0, p);
    } else {
      WriteAfterLostPromotion(base, s, p, off, data, env);
      OneObjectAt(t, p, Splice([], off, data), Splice(StartBytes(t, p), off, data));
    }
  }

  lemma OneObjectAt(t: Tree, p: string, a: Bytes, b: Bytes)
    ensures t[p := FileObj(a)] == t[p := FileObj(b)] <==> a == b
  {
    assert t[p := FileObj(a)][p] == FileObj(a) && t[p := FileObj(b)][p] == FileObj(b);
  }

  lemma CreateThenWrite(base: Base, s: State, p: string, off: int, data: Bytes, io: Faults)
    requires Inv(s) && p != "" && CreateFile(s, p, 420, io).1.Ok?
    requires WriteFile(CreateFile(s, p, 420, io).0, p, off, data, io).1.Ok?
    ensures var s' := WriteFile(CreateFile(s, p, 420, io).0, p, off, data, io).0;
            Inv(s') && off >= 0 && Fs(base, s') == Fs(base, s)[p := FileObj(Splice([], off, data))]
  {
    CreateFileOnTree(base, s, p, 420, io);
    WriteEmptyOnTree(base, s, CreateFile(s, p, 420, io).0, p, off, data, io);
  }

  lemma WriteEmptyOnTree(base: Base, s: State, s2: State, p: string, off: int, data: Bytes, io: Faults)
    requires Inv(s2) && Fs(base, s2) == Fs(base, s)[p := FileObj([])] && WriteFile(s2, p, off, data, io).1.Ok?
    ensures var s' := WriteFile(s2, p, off, data, io).0;
            Inv(s') && off >= 0 && Fs(base, s') == Fs(base, s)[p := FileObj(Splice([], off, data))]
  {
    FsAt(base, s2, p);
    WriteFileOnTree(base, s2, p, off, data, io);
  }

  // ---- stamps ----

  /** The store's SetMtime changes stamps and modes only. */
  lemma SetMtimeKeeps(base: Base, s: State, p: string, t: int, io: Faults)
    requires Inv(s)
    ensures var s' := SetMtime(s, p, t, io).0;
            && Inv(s') && s'.disk == s.disk && s'.rows - {p} == s.rows - {p}
            && (forall q :: View(base, s', q) == View(base, s, q))
            && (SetMtime(s, p, t, io).1.Ok? && p in s.rows ==> p in s'.rows && s'.rows[p].mtime == t)
  {
    var s' := SetMtime(s, p, t, io).0;
    forall q | q in s'.rows ensures RowOk(s'.disk, q, s'.rows[q]) { assert RowOk(s.disk, q, s.rows[q]); }
  }

  lemma SetMtimeAfter(base: Base, s: State, s1: State, p: string, t: int, io: Faults)
    requires Inv(s1) && Fs(base, s1) == Fs(base, s) && s1.rows - {p} == s.rows - {p} && p in s1.rows
    requires SetMtime(s1, p, t, io).1.Ok?
    ensures var s' := SetMtime(s1, p, t, io).0;
            && Inv(s') && Fs(base, s') == Fs(base, s) && s'.rows - {p} == s.rows - {p} && p in s'.rows && s'.rows[p].mtime == t
  {
    SetMtimeKeeps(base, s1, p, t, io);
    FsSame(base, s1, SetMtime(s1, p, t, io).0);
  }

  lemma DirMadeOnTree(base: Base, s: State, p: string, io: Faults)
    requires Inv(s) && p != "" && Promotes(base, s, p) && base.nodes[p].typ == TDir
    requires MkdirRow(s, p, base.nodes[p].mode, io).1.Ok?
    ensures var s' := MkdirRow(s, p, base.nodes[p].mode, io).0;
            Inv(s') && Fs(base, s') == Fs(base, s) && s'.rows - {p} == s.rows - {p} && p in s'.rows
  {
    MkdirOnTree(base, s, p, base.nodes[p].mode, io);
    FsAt(base, s, p);
    PutBack(Fs(base, s), p, DirObj);
    assert MkdirRow(s, p, base.nodes[p].mode, io).0.rows == s.rows[p := MkdirRow(s, p, base.nodes[p].mode, io).0.rows[p]];
  }

  lemma PutBack(t: Tree, p: string, o: Obj)
    requires p in t && t[p] == o
    ensures t[p := o] == t
  {
  }

  /** Setting a time shows nowhere on the mount but in the time: promotion and all. */
  lemma SetMtimeOnTree(base: Base, s: State, p: string, t: int, env: Env)
    requires Inv(s) && BaseOk(base) && p != "" && (Promotes(base, s, p) && base.nodes[p].typ == TFile ==> SafePromotion(base, s, p, env))
    requires SetMtimeOp(base, s, p, t, env).1.Ok?
    ensures var s' := SetMtimeOp(base, s, p, t, env).0;
            && Inv(s') && Fs(base, s') == Fs(base, s) && s'.rows - {p} == s.rows - {p}
            && p in s'.rows && s'.rows[p].mtime == t
  {
    if p in s.rows {
      SetMtimeAfter(base, s, s, p, t, env.io);
    } else if base.nodes[p].typ == TDir {
      DirMadeOnTree(base, s, p, env.promote);
      SetMtimeAfter(base, s, MkdirRow(s, p, base.nodes[p].mode, env.promote).0, p, t, env.io);
    } else {
      EnsureOverlayOnTree(base, s, p, env);
      SetMtimeAfter(base, s, EnsureOverlay(base, s, p, env).0, p, t, env.io);
    }
  }

  lemma TruncateOpOnTree(base: Base, s: State, p: string, size: int, env: Env)
    requires Inv(s) && BaseOk(base) && p != "" && SafePromotion(base, s, p, env)
    requires TruncateOp(base, s, p, size, env).1.Ok?
    ensures Inv(TruncateOp(base, s, p, size, env).0)
    ensures size >= 0 && p in Fs(base, s) && (Fs(base, s)[p].FileObj? || Fs(base, s)[p].LinkObj?)
    ensures Fs(base, TruncateOp(base, s, p, size, env).0)
         == Fs(base, s)[p := FileObj(Resize(Fs(base, s)[p].bytes, size))]
  {
    EnsureOverlayOnTree(base, s, p, env);
    var s1 := EnsureOverlay(base, s, p, env).0;
    TruncateOnTree(base, s1, p, size, env.io);
    FsAt(base, s1, p);
  }

  /** Read returns the window of the visible object, for every path and every hydration. */
  lemma ReadIsView(base: Base, s: State, p: string, off: nat, size: nat, hyd: Hydration)
    requires Inv(s) && BaseOk(base) && Honest(base, p, hyd)
    requires Promotes(base, s, p) ==> base.nodes[p].typ != TDir
    ensures p !in Fs(base, s) || Fs(base, s)[p].DirObj? ==> Read(base, s, p, off, size, hyd) == None
    ensures p in Fs(base, s) && !Fs(base, s)[p].DirObj? && (Promotes(base, s, p) ==> hyd.Cached?) ==>
              Read(base, s, p, off, size, hyd) == Some(Chunk(Fs(base, s)[p].bytes, off, size))
  {
    FsAt(base, s, p);
    if p in s.rows { assert RowOk(s.disk, p, s.rows[p]); }
  }

  // ---- rename ----

  /** Renaming p leaves nothing visible at p: its row keeps a whiteout, or the base has nothing there. */
  predicate HidesSource(base: Base, s: State, p: string) {
    p in s.rows && MovesBare(s.rows[p].kind) ==> p !in base.nodes
  }

  /** Renaming p to q keeps a symlink a symlink. */
  predicate KeepsType(base: Base, s: State, p: string, q: string) {
    View(base, s, p).LinkObj? ==> p in s.rows && q !in base.nodes
  }

  /** The state RenameRow leaves when it succeeds, file rows first. */
  lemma RenameFileState(s: State, p: string, q: string, io: Faults)
    requires Inv(s) && p != q && Live(s.rows, p) && s.rows[p].kind != Mkdir && RenameRow(s, p, q, io).1.Ok?
    ensures var s' := RenameRow(s, p, q, io).0;
            && q !in s.rows && s'.rows == RenamedRows(s.rows, p, q, s.clock)
            && p in s.disk && q in s'.disk && s'.disk[q] == s.disk[p] && Keeps(s.disk, s'.disk, {p, q})
  {
    assert RowOk(s.disk, p, s.rows[p]);
    MkdirAllKeeps(s.disk, Dir(q));
    MoveFileKeeps(MkdirAll(s.disk, Dir(q)).value, p, q);
  }

  lemma RenameFileRow(base: Base, s: State, p: string, q: string, io: Faults)
    requires Inv(s) && p != q && p != "" && q != ""
    requires Live(s.rows, p) && s.rows[p].kind != Mkdir && RenameRow(s, p, q, io).1.Ok?
    ensures var s' := RenameRow(s, p, q, io).0;
            && Inv(s')
            && View(base, s', q) == View(base, s, p)
            && View(base, s', p) == (if MovesBare(s.rows[p].kind) then BaseObj(base, p) else Absent)
            && forall r :: r != p && r != q ==> View(base, s', r) == View(base, s, r)
  {
    RenameFileState(s, p, q, io);
    RenamedRowsAre(s.rows, p, q, s.clock);
    FileMoved(base, s, RenameRow(s, p, q, io).0, p, q);
  }

  lemma FileMoved(base: Base, s: State, s': State, p: string, q: string)
    requires Inv(s) && p != q && p != "" && q != "" && Live(s.rows, p) && s.rows[p].kind != Mkdir
    requires p in s.disk && q in s'.disk && s'.disk[q] == s.disk[p] && Keeps(s.disk, s'.disk, {p, q})
    requires q in s'.rows && s'.rows[q] == RenamedEntry(s.rows[p], q, s.clock)
    requires p in s'.rows <==> !MovesBare(s.rows[p].kind)
    requires p in s'.rows ==> s'.rows[p] == Whiteout(p, s.clock, ChainSource(s.rows[p]))
    requires forall r :: r != p && r != q ==> (r in s'.rows <==> r in s.rows) && (r in s'.rows ==> s'.rows[r] == s.rows[r])
    ensures Inv(s')
    ensures View(base, s', q) == View(base, s, p)
    ensures View(base, s', p) == if MovesBare(s.rows[p].kind) then BaseObj(base, p) else Absent
    ensures forall r :: r != p && r != q ==> View(base, s', r) == View(base, s, r)
  {
    assert RowOk(s.disk, p, s.rows[p]);
    forall r | r in s'.rows && r != p && r != q
      ensures RowOk(s'.disk, r, s'.rows[r]) && RowObj(s'.disk, s'.rows[r]) == RowObj(s.disk, s.rows[r])
    {
      assert RowOk(s.disk, r, s.rows[r]);
    }
  }

  lemma RenameDirState(s: State, p: string, q: string, io: Faults)
    requires Inv(s) && p != q && Live(s.rows, p) && s.rows[p].kind == Mkdir && RenameRow(s, p, q, io).1.Ok?
    ensures var s' := RenameRow(s, p, q, io).0;
            && q !in s.rows && !HasOverlayDescendants(s.rows, p)
            && s'.rows == RenamedRows(s.rows, p, q, s.clock)
            && q in s'.disk && s'.disk[q].DirNode?
            && forall r :: r in s.disk && r != p && !Below(r, p) ==> r in s'.disk && s'.disk[r] == s.disk[r]
  {
    assert RowOk(s.disk, p, s.rows[p]);
    MkdirAllKeeps(s.disk, Dir(q));
    MoveDirKeeps(MkdirAll(s.disk, Dir(q)).value, p, q);
  }

  lemma RenameDirRow(base: Base, s: State, p: string, q: string, io: Faults)
    requires Inv(s) && p != q && p != "" && q != "" && AncestorClosed(base)
    requires Live(s.rows, p) && s.rows[p].kind == Mkdir && p !in base.nodes
    requires RenameRow(s, p, q, io).1.Ok?
    ensures var s' := RenameRow(s, p, q, io).0;
            && Inv(s')
            && View(base, s', q) == DirObj
            && View(base, s', p) == Absent
            && forall r :: r != p && r != q ==> View(base, s', r) == View(base, s, r)
  {
    RenameDirState(s, p, q, io);
    RenamedRowsAre(s.rows, p, q, s.clock);
    DirMoved(base, s, RenameRow(s, p, q, io).0, p, q);
  }

  lemma DirMoved(base: Base, s: State, s': State, p: string, q: string)
    requires Inv(s) && p != q && p != "" && q != "" && AncestorClosed(base) && p !in base.nodes
    requires p in s.rows && !HasOverlayDescendants(s.rows, p)
    requires q in s'.disk && s'.disk[q].DirNode? && p !in s'.rows
    requires forall r :: r in s.disk && r != p && !Below(r, p) ==> r in s'.disk && s'.disk[r] == s.disk[r]
    requires q in s'.rows && s'.rows[q].path == q && s'.rows[q].backing == q && s'.rows[q].kind == Mkdir
    requires forall r :: r != p && r != q ==>
               && (r in s'.rows <==> r in s.rows && !(IsDeleted(s.rows[r]) && Below(r, p)))
               && (r in s'.rows ==> s'.rows[r] == s.rows[r])
    ensures Inv(s') && View(base, s', q) == DirObj && View(base, s', p) == Absent
    ensures forall r :: r != p && r != q ==> View(base, s', r) == View(base, s, r)
  {
    forall r | r in s'.rows && r != q
      ensures RowOk(s'.disk, r, s'.rows[r]) && RowObj(s'.disk, s'.rows[r]) == RowObj(s.disk, s.rows[r])
    {
      assert RowOk(s.disk, r, s.rows[r]);
      if !IsDeleted(s.rows[r]) { assert !Below(r, p); }
    }
    forall r | r != p && r != q && r in s.rows && r !in s'.rows ensures r !in base.nodes {
      assert Below(r, p);
    }
  }

  lemma RenameAndMarkRow(base: Base, s: State, p: string, q: string, oid: string, io: Faults)
    requires Inv(s) && p != q && p != "" && q != ""
    requires Live(s.rows, p) && HoldsBytes(s.rows[p].kind) && RenameAndMark(s, p, q, oid, io).1.Ok?
    ensures var s' := RenameAndMark(s, p, q, oid, io).0;
            && Inv(s')
            && (View(base, s, p).FileObj? || View(base, s, p).LinkObj?)
            && View(base, s', q) == FileObj(View(base, s, p).bytes)
            && View(base, s', p) == BaseObj(base, p)
            && forall r :: r != p && r != q ==> View(base, s', r) == View(base, s, r)
  {
    var s' := RenameAndMark(s, p, q, oid, io).0;
    var e := s.rows[p];
    assert RowOk(s.disk, p, e);
    MkdirAllKeeps(s.disk, Dir(q));
    MoveFileKeeps(MkdirAll(s.disk, Dir(q)).value, p, q);
    assert Keeps(s.disk, s'.disk, {p, q});
    RowsStay(s, s'.disk, s.rows - {p}, {p, q});
    forall r | r in s'.rows ensures RowOk(s'.disk, r, s'.rows[r]) {
      if r != q { assert r in s.rows - {p}; }
    }
    forall r | r != p && r != q ensures View(base, s', r) == View(base, s, r) {
      if r in s.rows { assert r in s.rows - {p} && s'.rows[r] == (s.rows - {p})[r]; }
    }
  }

  /** What a successful rename does to every path.  It hides the source exactly when
      HidesSource holds before the call, and keeps the object exactly when KeepsType does. */
  lemma RenameExact(base: Base, s: State, p: string, q: string, env: Env)
    requires Inv(s) && BaseOk(base) && AncestorClosed(base) && p != q && p != "" && q != ""
    requires Promotes(base, s, p) ==> Honest(base, p, env.hyd) && TmpFree(s, p)
    requires RenameOp(base, s, p, q, env).1.Ok?
    ensures var s' := RenameOp(base, s, p, q, env).0;
            && Inv(s')
            && (View(base, s', q) == View(base, s, p) <==> KeepsType(base, s, p, q))
            && (View(base, s', q) != View(base, s, p) ==>
                  View(base, s, p).LinkObj? && View(base, s', q) == FileObj(View(base, s, p).bytes))
            && (View(base, s', p) == Absent <==> HidesSource(base, s, p))
            && (View(base, s', p) != Absent ==> View(base, s', p) == BaseObj(base, p))
            && forall r :: r != p && r != q ==> View(base, s', r) == View(base, s, r)
  {
    if p in s.rows {
      var e := s.rows[p];
      assert RowOk(s.disk, p, e);
      if q in base.nodes && (e.kind == Create || e.kind == Symlink) {
        RenameAndMarkRow(base, s, p, q, base.nodes[q].oid, env.io);
      } else if e.kind == Mkdir {
        RenameDirRow(base, s, p, q, env.io);
      } else {
        RenameFileRow(base, s, p, q, env.io);
      }
    } else {
      var content := if env.hyd.Cached? then env.hyd.content else None;
      CopyOnWriteExact(base, s, p, content, env.promote);
      CopyOnWriteDisk(s, p, base.nodes[p], content, env.promote);
      var s1 := EnsureOverlay(base, s, p, env).0;
      forall r | r != p ensures View(base, s1, r) == View(base, s, r) {
        assert r == p + ".tmp" ==> View(base, s1, r) == View(base, s, r);
      }
      RenameFileRow(base, s1, p, q, env.io);
    }
  }

  lemma RenameOnTree(base: Base, s: State, p: string, q: string, env: Env)
    requires Inv(s) && BaseOk(base) && AncestorClosed(base) && p != q && p != "" && q != ""
    requires Promotes(base, s, p) ==> Honest(base, p, env.hyd) && TmpFree(s, p)
    requires RenameOp(base, s, p, q, env).1.Ok?
    ensures p in Fs(base, s)
    ensures Fs(base, RenameOp(base, s, p, q, env).0) == (Fs(base, s) - {p})[q := Fs(base, s)[p]]
       <==> HidesSource(base, s, p) && KeepsType(base, s, p, q)
  {
    RenameExact(base, s, p, q, env);
    SourceIsVisible(base, s, p, q, env);
    FsMoves(base, s, RenameOp(base, s, p, q, env).0, p, q);
  }

  lemma SourceIsVisible(base: Base, s: State, p: string, q: string, env: Env)
    requires Inv(s) && BaseOk(base) && p != q && RenameOp(base, s, p, q, env).1.Ok?
    ensures View(base, s, p) != Absent && p in Fs(base, s)
  {
    if p in s.rows { assert RowOk(s.disk, p, s.rows[p]); }
    FsAt(base, s, p);
  }

  lemma FsMoves(base: Base, s: State, s': State, p: string, q: string)
    requires p != q && View(base, s, p) != Absent && p in Fs(base, s)
    requires forall r :: r != p && r != q ==> View(base, s', r) == View(base, s, r)
    ensures Fs(base, s') == (Fs(base, s) - {p})[q := Fs(base, s)[p]]
       <==> View(base, s', p) == Absent && View(base, s', q) == View(base, s, p)
  {
    var t := (Fs(base, s) - {p})[q := Fs(base, s)[p]];
    FsAt(base, s, p);
    FsAt(base, s', p);
    FsAt(base, s', q);
    if View(base, s', p) == Absent && View(base, s', q) == View(base, s, p) {
      forall r ensures r in Fs(base, s') <==> r in t
        ensures r in t ==> Fs(base, s')[r] == t[r]
      {
        FsAt(base, s, r);
        FsAt(base, s', r);
      }
    }
  }
}
