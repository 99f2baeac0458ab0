/** Runs of engine operations refine runs on a plain map from paths to objects. */
module EngineRuns {
  import opened Wrappers
  import opened OverlayState
  import opened MergedView
  import opened EngineSpec

  datatype Op =
    | OpWrite(p: string, off: int, data: Bytes)
    | OpCreate(p: string, mode: nat)
    | OpTruncate(p: string, size: int)
    | OpUnlink(p: string)
    | OpMkdir(p: string, mode: nat)
    | OpRename(p: string, q: string)
    | OpSetMtime(p: string, t: int)

  /** One call: the operation and the outcomes of the calls it makes outside the model. */
  datatype Call = Call(op: Op, env: Env)

  function Step(base: Base, s: State, c: Call): (State, Result) {
    match c.op
    case OpWrite(p, off, data) => Write(base, s, p, off, data, c.env)
    case OpCreate(p, mode) => CreateFile(s, p, mode, c.env.io)
    case OpTruncate(p, size) => TruncateOp(base, s, p, size, c.env)
    case OpUnlink(p) => Remove(s, p, c.env.io)
    case OpMkdir(p, mode) => MkdirRow(s, p, mode, c.env.io)
    case OpRename(p, q) => RenameOp(base, s, p, q, c.env)
    case OpSetMtime(p, t) => SetMtimeOp(base, s, p, t, c.env)
  }

  /** The same operation on the plain map. */
  function Apply(t: Tree, op: Op): Tree {
    match op
    case OpWrite(p, off, data) => if off < 0 then t else t[p := FileObj(Splice(StartBytes(t, p), off, data))]
    case OpCreate(p, _) => t[p := FileObj([])]
    case OpTruncate(p, size) => if size < 0 then t else t[p := FileObj(Resize(StartBytes(t, p), size))]
    case OpUnlink(p) => t - {p}
    case OpMkdir(p, _) => t[p := DirObj]
    case OpRename(p, q) => if p == q || p !in t then t else (t - {p})[q := t[p]]
    case OpSetMtime(_, _) => t
  }

  /** When a call does what the plain map does: each condition can be read off before the call. */
  predicate Faithful(base: Base, s: State, c: Call) {
    match c.op
    case OpWrite(p, _, _) => p != "" && SafePromotion(base, s, p, c.env) && !LosesPromotion(base, s, p, c.env)
    case OpTruncate(p, _) => p != "" && SafePromotion(base, s, p, c.env)
    case OpRename(p, q) =>
      && p != "" && q != ""
      && (p == q || (
          && (Promotes(base, s, p) ==> Honest(base, p, c.env.hyd) && TmpFree(s, p))
          && HidesSource(base, s, p) && KeepsType(base, s, p, q)))
    case OpCreate(p, _) => p != ""
    case OpUnlink(p) => p != ""
    case OpMkdir(p, _) => p != ""
    case OpSetMtime(p, _) => p != "" && (Promotes(base, s, p) && base.nodes[p].typ == TFile ==> SafePromotion(base, s, p, c.env))
  }

  lemma StepRefines(base: Base, s: State, c: Call)
    requires Inv(s) && BaseOk(base) && AncestorClosed(base)
    requires Faithful(base, s, c) && Step(base, s, c).1.Ok?
    ensures Inv(Step(base, s, c).0)
    ensures Fs(base, Step(base, s, c).0) == Apply(Fs(base, s), c.op)
  {
    match c.op
    case OpWrite(p, off, data) => WriteOnTree(base, s, p, off, data, c.env);
    case OpCreate(p, mode) => CreateFileOnTree(base, s, p, mode, c.env.io);
    case OpTruncate(p, size) => TruncateOpOnTree(base, s, p, size, c.env);
    case OpUnlink(p) => RemoveOnTree(base, s, p, c.env.io);
    case OpMkdir(p, mode) => MkdirOnTree(base, s, p, mode, c.env.io);
    case OpRename(p, q) =>
      if p != q {
        RenameExact(base, s, p, q, c.env);
        RenameOnTree(base, s, p, q, c.env);
      }
    case OpSetMtime(p, t) => SetMtimeOnTree(base, s, p, t, c.env);
  }

  function Run(base: Base, s: State, calls: seq<Call>): State
    decreases |calls|
  {
    if calls == [] then s else Run(base, Step(base, s, calls[0]).0, calls[1..])
  }

  function ApplyAll(t: Tree, calls: seq<Call>): Tree
    decreases |calls|
  {
    if calls == [] then t else ApplyAll(Apply(t, calls[0].op), calls[1..])
  }

  /** Every call of the run succeeds and is faithful where it is made. */
  predicate GoodRun(base: Base, s: State, calls: seq<Call>)
    decreases |calls|
  {
    calls == [] || (
      && Faithful(base, s, calls[0]) && Step(base, s, calls[0]).1.Ok?
      && GoodRun(base, Step(base, s, calls[0]).0, calls[1..]))
  }

  /** After any run the mount shows what the plain map holds, every file row's size is the length
      of its backing file, and Read returns windows of the map's objects. */
  lemma {:induction false} RunRefines(base: Base, s: State, calls: seq<Call>)
    requires Inv(s) && BaseOk(base) && AncestorClosed(base) && GoodRun(base, s, calls)
    ensures Inv(Run(base, s, calls))
    ensures Fs(base, Run(base, s, calls)) == ApplyAll(Fs(base, s), calls)
    decreases |calls|
  {
    if calls != [] {
      StepRefines(base, s, calls[0]);
      RunRefines(base, Step(base, s, calls[0]).0, calls[1..]);
    }
  }

  lemma ReadAfterRun(base: Base, s: State, calls: seq<Call>, p: string, off: nat, size: nat, hyd: Hydration)
    requires Inv(s) && BaseOk(base) && AncestorClosed(base) && GoodRun(base, s, calls)
    requires Honest(base, p, hyd) && hyd.Cached? && !(p in base.nodes && base.nodes[p].typ == TDir)
    ensures var t := ApplyAll(Fs(base, s), calls);
            var read := Read(base, Run(base, s, calls), p, off, size, hyd);
            if p in t && (t[p].FileObj? || t[p].LinkObj?) then read == Some(Chunk(t[p].bytes, off, size)) else read == None
    ensures var s' := Run(base, s, calls);
            p in s'.rows && HoldsBytes(s'.rows[p].kind) ==>
              p in s'.disk && s'.disk[p].FileNode? && s'.rows[p].size == |s'.disk[p].bytes|
  {
    RunRefines(base, s, calls);
    var s' := Run(base, s, calls);
    FsAt(base, s', p);
    ReadIsView(base, s', p, off, size, hyd);
    if p in s'.rows { assert RowOk(s'.disk, p, s'.rows[p]); }
  }

  // ---- where the code parts from the plain map ----

  const BLOB: Bytes := [1, 2, 3]
  const ONE_FILE := Base(map["a" := BaseNode(TFile, 420, "oid")], map["oid" := BLOB])
  const QUIET := Env(Cached(Some(BLOB)), map[], map[])

  /** An overlay file "a.tmp" beside a base file "a". */
  const TMP_TAKEN := State(map["a.tmp" := Entry("a.tmp", Create, "a.tmp", 420, 1, 0, 0, "", "")], map["a.tmp" := FileNode([7])], 1)

  lemma TmpTakenIs()
    ensures Inv(TMP_TAKEN) && BaseOk(ONE_FILE) && View(ONE_FILE, TMP_TAKEN, "a.tmp") == FileObj([7])
    ensures "a" + ".tmp" == "a.tmp" && Live(TMP_TAKEN.rows, "a" + ".tmp")
  {
  }

  const PROMOTED := EnsureCopyOnWrite(TMP_TAKEN, "a", ONE_FILE.nodes["a"], Some(BLOB), map[])

  lemma TmpTakenPromotes()
    ensures PROMOTED.1.Ok?
  {
    TmpTakenIs();
    NoFileAbove(TMP_TAKEN.disk);
  }

  lemma TmpGone()
    ensures "a.tmp" !in PROMOTED.0.disk && "a" in PROMOTED.0.disk && PROMOTED.0.disk["a"] == FileNode(BLOB)
    ensures PROMOTED.0.rows == TMP_TAKEN.rows["a" := Entry("a", Modify, "a", 420, |BLOB|, 1, 1, "oid", "")]
  {
    TmpTakenIs();
    TmpTakenPromotes();
    CopyOnWriteDisk(TMP_TAKEN, "a", ONE_FILE.nodes["a"], Some(BLOB), map[]);
  }

  /** Writing to a base file destroys an unrelated overlay file whose name is its name + ".tmp". */
  lemma PromotionClobbersTmpFile()
    ensures var c := Call(OpWrite("a", 0, [9]), QUIET);
      && Inv(TMP_TAKEN) && BaseOk(ONE_FILE) && Step(ONE_FILE, TMP_TAKEN, c).1.Ok?
      && View(ONE_FILE, TMP_TAKEN, "a.tmp") == FileObj([7])
      && View(ONE_FILE, Step(ONE_FILE, TMP_TAKEN, c).0, "a.tmp") == Absent
  {
    TmpTakenIs();
    TmpTakenPromotes();
    TmpGone();
    assert EnsureOverlay(ONE_FILE, TMP_TAKEN, "a", QUIET) == PROMOTED;
  }

  const LOST := Env(HydrationFails(ErrNotExist), map[], map[])
  const LOST_DIR := Env(Cached(Some(BLOB)), map[SysMkdirAll := ErrNotExist], map[])

  /** A write of one byte to a base file of three, while its object or its directory is reported
      not to exist: the file has one byte afterwards. */
  lemma LostWriteKeepsOneByte(env: Env)
    requires env == LOST || env == LOST_DIR
    ensures var s, c := State(map[], map[], 0), Call(OpWrite("a", 0, [9]), env);
            && Inv(s) && BaseOk(ONE_FILE) && SafePromotion(ONE_FILE, s, "a", env) && Step(ONE_FILE, s, c).1.Ok?
            && View(ONE_FILE, s, "a") == FileObj(BLOB)
            && View(ONE_FILE, Step(ONE_FILE, s, c).0, "a") == FileObj([9])
  {
    var s := State(map[], map[], 0);
    assert EnsureOverlay(ONE_FILE, s, "a", env) == (s, Fail(ErrNotExist));
    FreshWrite();
  }

  lemma FreshWrite()
    ensures var (s, r) := CreateFile(State(map[], map[], 0), "a", 420, map[]);
            && r.Ok? && WriteFile(s, "a", 0, [9], map[]).1.Ok?
            && View(ONE_FILE, WriteFile(s, "a", 0, [9], map[]).0, "a") == FileObj([9])
  {
    NoFileAbove(map[]);
    var (s, r) := CreateFile(State(map[], map[], 0), "a", 420, map[]);
    assert r.Ok? && s.disk["a"] == FileNode([]) && s.rows["a"].backing == "a" && s.rows["a"].kind == Create;
    WriteNine(s);
  }

  lemma WriteNine(s: State)
    requires "a" in s.rows && s.rows["a"].kind == Create && s.rows["a"].backing == "a"
    requires "a" in s.disk && s.disk["a"] == FileNode([])
    ensures WriteFile(s, "a", 0, [9], map[]).1.Ok?
    ensures View(ONE_FILE, WriteFile(s, "a", 0, [9], map[]).0, "a") == FileObj([9])
  {
    assert Splice([], 0, [9]) == [9];
  }

  lemma NoFileAbove(disk: Disk)
    requires "." !in disk && "" !in disk
    ensures Paths.Dir("a") == "." && MkdirAll(disk, ".").Some?
  {
    assert Paths.LastSlash("a") == -1 by { assert "a"[..0] == ""; }
    assert "a"[..0] == "";
    assert Dirs(".") == {"."};
  }

  lemma MkdirRoot(disk: Disk)
    requires "." in disk ==> disk["."].DirNode?
    ensures MkdirAll(disk, ".") == Some(disk["." := DirNode])
  {
    assert Dirs(".") == {"."};
    assert disk + (map a | a in Dirs(".") :: DirNode) == disk["." := DirNode];
  }

  lemma RootHasB(disk: Disk)
    requires "." in disk && disk["."].DirNode?
    ensures Paths.Dir("b") == "." && MkdirAll(disk, ".") == Some(disk)
  {
    Paths.SplitNoSlash("b", "");
    Paths.DirOfChild(".", "b");
    MkdirRoot(disk);
    assert disk["." := DirNode] == disk;
  }

  const DELETED := State(map["a" := Entry("a", Delete, "", 0, 0, 0, 0, "", "")], map[], 1)
  const RECREATED := State(map["a" := Entry("a", Create, "a", 420, 0, 1, 1, "", "")],
                           map["." := DirNode, "a" := FileNode([])], 2)

  lemma UnlinkBase()
    ensures Remove(State(map[], map[], 0), "a", map[]) == (DELETED, Ok)
  {
  }

  lemma CreateAgain()
    ensures CreateFile(DELETED, "a", 420, map[]) == (RECREATED, Ok)
  {
    NoFileAbove(map[]);
    MkdirRoot(map[]);
    assert CreateFile(DELETED, "a", 420, map[]).0.disk == RECREATED.disk;
    assert CreateFile(DELETED, "a", 420, map[]).0.rows == RECREATED.rows;
  }

  /** Deleting a base file, creating it anew and moving it away brings the base file back. */
  lemma RenameResurrectsBase()
    ensures var deleted := Remove(State(map[], map[], 0), "a", map[]);
            var created := CreateFile(deleted.0, "a", 420, map[]);
            var renamed := RenameOp(ONE_FILE, created.0, "a", "b", QUIET);
            && deleted.1.Ok? && created.1.Ok? && renamed.1.Ok?
            && View(ONE_FILE, deleted.0, "a") == Absent
            && View(ONE_FILE, renamed.0, "a") == FileObj(BLOB)
  {
    UnlinkBase();
    CreateAgain();
    RootHasB(RECREATED.disk);
    RenameResult();
  }

  const ONE_LINK := Base(map["a" := BaseNode(TSymlink, 420, "oid")], map["oid" := BLOB])
  const NO_ROWS := State(map[], map["." := DirNode], 0)
  const LINK_PROMOTED := State(map["a" := Entry("a", Modify, "a", 420, |BLOB|, 0, 0, "oid", "")],
                               map["." := DirNode, "a" := FileNode(BLOB)], 1)

  lemma LinkPromotes()
    ensures EnsureOverlay(ONE_LINK, NO_ROWS, "a", QUIET) == (LINK_PROMOTED, Ok)
  {
    NoFileAbove(map[]);
    MkdirRoot(NO_ROWS.disk);
    assert NO_ROWS.disk["." := DirNode] == NO_ROWS.disk && "a" + ".tmp" == "a.tmp";
    var tmp := NO_ROWS.disk["a.tmp" := FileNode([])]["a.tmp" := FileNode(BLOB)];
    assert Move(tmp, "a.tmp", "a") == Some(LINK_PROMOTED.disk) by {
      assert (tmp - {"a.tmp"})["a" := tmp["a.tmp"]] == LINK_PROMOTED.disk;
    }
  }

  /** Renaming a symlink that is still in the base leaves a regular file holding the link's text. */
  lemma RenamedLinkIsFile()
    ensures var (s', r) := RenameOp(ONE_LINK, NO_ROWS, "a", "b", QUIET);
            r.Ok? && View(ONE_LINK, NO_ROWS, "a") == LinkObj(BLOB) && View(ONE_LINK, s', "b") == FileObj(BLOB)
  {
    LinkPromotes();
    LinkMoves();
  }

  lemma LinkMoves()
    ensures RenameRow(LINK_PROMOTED, "a", "b", map[]).1.Ok?
    ensures View(ONE_LINK, RenameRow(LINK_PROMOTED, "a", "b", map[]).0, "b") == FileObj(BLOB)
  {
    RootHasB(LINK_PROMOTED.disk);
    assert Move(LINK_PROMOTED.disk, "a", "b").Some?;
    RenameFileRow(ONE_LINK, LINK_PROMOTED, "a", "b", map[]);
  }

  lemma RenameResult()
    requires Paths.Dir("b") == "." && MkdirAll(RECREATED.disk, ".") == Some(RECREATED.disk)
    ensures RenameOp(ONE_FILE, RECREATED, "a", "b", QUIET).1.Ok?
    ensures View(ONE_FILE, RenameOp(ONE_FILE, RECREATED, "a", "b", QUIET).0, "a") == FileObj(BLOB)
  {
    assert RenameRow(RECREATED, "a", "b", map[]).1.Ok?;
    RenameExact(ONE_FILE, RECREATED, "a", "b", QUIET);
  }
}
