/** Reconcile reads the table, lists what is stale, and deletes it later under a guard.  Engine calls
    come in between: what can the delete then take that the plan did not mean? */
module ReconcileRuns {
  import opened Wrappers
  import opened OverlayState
  import opened MergedView
  import opened EngineSpec
  import opened EngineRuns
  import opened ReconcileSpec

  /** What a row holds: nothing, a directory, or bytes. */
  function Payload(s: State, p: string): Obj
    requires p in s.rows
  {
    var o := RowObj(s.disk, s.rows[p]);
    if o.LinkObj? then FileObj(o.bytes) else o
  }

  /** Rows that lose their kind when they are moved onto a base file. */
  predicate Markable(k: Kind) { k == Create || k == Symlink }

  predicate BaseFileOf(base: Base, p: string, oid: string) {
    p in base.nodes && base.nodes[p].typ != TDir && base.nodes[p].oid == oid
  }

  predicate BaseDir(base: Base, p: string) { p in base.nodes && base.nodes[p].typ == TDir }

  /** Row e at p can have come from row e0 at q with its bytes and its stamp: the moves that keep both
      change kinds and object names in these ways only. */
  ghost predicate Descends(base: Base, q: string, e0: Entry, p: string, e: Entry) {
    match e.kind
    case Create => e0.kind == Create && e.oid == e0.oid && (p in base.nodes ==> q == p)
    case Symlink => e0.kind == Symlink && (p in base.nodes ==> q == p)
    case Modify => (q == p && e0.kind == Modify && e.oid == e0.oid) || (Markable(e0.kind) && BaseFileOf(base, p, e.oid))
    case Rename =>
      && (q == p || !BaseDir(base, p))
      && (if Markable(e0.kind) then exists r :: BaseFileOf(base, r, e.oid)
          else (e0.kind == Modify || e0.kind == Rename) && e.oid == e0.oid)
    case Mkdir => true
    case Delete => true
  }

  ghost predicate HasOrigin(base: Base, s: State, s2: State, p: string)
    requires p in s2.rows
  {
    exists q :: q in s.rows && s.rows[q].mtime == s2.rows[p].mtime && Payload(s, q) == Payload(s2, p)
                && Descends(base, q, s.rows[q], p, s2.rows[p])
  }

  /** A row of s2 with one of the stamps still stands for the bytes of a row of s with that stamp. */
  ghost predicate Carries(base: Base, stamps: set<int>, s: State, s2: State) {
    && s.clock <= s2.clock
    && forall p :: p in s2.rows && s2.rows[p].mtime in stamps ==> HasOrigin(base, s, s2, p)
  }

  predicate Past(stamps: set<int>, s: State) { forall t :: t in stamps ==> t < s.clock }

  lemma DescendsTrans(base: Base, q0: string, e0: Entry, q: string, e1: Entry, p: string, e: Entry)
    requires Descends(base, q0, e0, q, e1) && Descends(base, q, e1, p, e)
    ensures Descends(base, q0, e0, p, e)
  {
  }

  lemma CarriesTrans(base: Base, stamps: set<int>, s: State, s1: State, s2: State)
    requires Carries(base, stamps, s, s1) && Carries(base, stamps, s1, s2)
    ensures Carries(base, stamps, s, s2)
  {
    forall p | p in s2.rows && s2.rows[p].mtime in stamps ensures HasOrigin(base, s, s2, p) {
      var r :| r in s1.rows && s1.rows[r].mtime == s2.rows[p].mtime && Payload(s1, r) == Payload(s2, p)
               && Descends(base, r, s1.rows[r], p, s2.rows[p]);
      var q :| q in s.rows && s.rows[q].mtime == s1.rows[r].mtime && Payload(s, q) == Payload(s1, r)
               && Descends(base, q, s.rows[q], r, s1.rows[r]);
      DescendsTrans(base, q, s.rows[q], r, s1.rows[r], p, s2.rows[p]);
    }
  }

  /** An operation that gives row p another stamp, if it touches it at all, and leaves the others be. */
  lemma OtherStampCarries(base: Base, stamps: set<int>, s: State, s': State, p: string)
    requires s.clock <= s'.clock && s'.rows - {p} == s.rows - {p} && (p in s'.rows ==> s'.rows[p].mtime !in stamps)
    requires forall q :: q != p ==> View(base, s', q) == View(base, s, q)
    ensures Carries(base, stamps, s, s')
  {
    forall q | q in s'.rows && s'.rows[q].mtime in stamps ensures HasOrigin(base, s, s', q) {
      assert q in (s'.rows - {p}) && (s'.rows - {p})[q] == (s.rows - {p})[q];
      assert View(base, s', q) == View(base, s, q);
      assert q in s.rows && Payload(s, q) == Payload(s', q) && Descends(base, q, s.rows[q], q, s'.rows[q]);
    }
  }

  // ---- each operation ----

  /** A call that may run between the two halves of a reconcile: it succeeds, its promotion finds its
      temporary name free, and it sets no file's time to one of the stamps. */
  predicate Safe(base: Base, stamps: set<int>, s: State, c: Call) {
    && Step(base, s, c).1.Ok?
    && c.op.p != ""
    && (c.op.OpWrite? || c.op.OpTruncate? ==> SafePromotion(base, s, c.op.p, c.env))
    && (c.op.OpRename? ==> c.op.q != "" && (Promotes(base, s, c.op.p) ==> Honest(base, c.op.p, c.env.hyd) && TmpFree(s, c.op.p)))
    && (c.op.OpSetMtime? ==>
          c.op.t !in stamps && (Promotes(base, s, c.op.p) && base.nodes[c.op.p].typ == TFile ==> SafePromotion(base, s, c.op.p, c.env)))
  }

  lemma PromotionCarries(base: Base, stamps: set<int>, s: State, p: string, cached: Option<Bytes>, io: Faults)
    requires Inv(s) && Past(stamps, s) && BaseOk(base) && p != "" && Promotes(base, s, p) && TmpFree(s, p)
    requires EnsureCopyOnWrite(s, p, base.nodes[p], cached, io).1.Ok?
    ensures var s' := EnsureCopyOnWrite(s, p, base.nodes[p], cached, io).0;
            && Inv(s') && Carries(base, stamps, s, s') && p in s'.rows && s'.rows[p].kind == Modify
  {
    var s' := EnsureCopyOnWrite(s, p, base.nodes[p], cached, io).0;
    CopyOnWriteExact(base, s, p, cached, io);
    CopyOnWriteDisk(s, p, base.nodes[p], cached, io);
    OthersSeeNothing(base, s, s', p);
    OtherStampCarries(base, stamps, s, s', p);
  }

  lemma EnsureOverlayCarries(base: Base, stamps: set<int>, s: State, p: string, env: Env)
    requires Inv(s) && Past(stamps, s) && BaseOk(base) && p != ""
    requires Promotes(base, s, p) ==> TmpFree(s, p)
    ensures var (s', r) := EnsureOverlay(base, s, p, env);
            && Inv(s') && Carries(base, stamps, s, s')
            && (r.Ok? && Promotes(base, s, p) ==> p in s'.rows && s'.rows[p].kind == Modify)
  {
    var (s', r) := EnsureOverlay(base, s, p, env);
    if r.Fail? {
      FailedPromotionIsInvisible(base, s, p, env);
      OtherStampCarries(base, stamps, s, s', p);
    } else if p in s.rows {
      SameCarries(base, stamps, s);
    } else {
      PromotionCarries(base, stamps, s, p, if env.hyd.Cached? then env.hyd.content else None, env.promote);
    }
  }

  lemma SameCarries(base: Base, stamps: set<int>, s: State)
    ensures Carries(base, stamps, s, s)
  {
    forall q | q in s.rows ensures HasOrigin(base, s, s, q) {
      assert Payload(s, q) == Payload(s, q) && Descends(base, q, s.rows[q], q, s.rows[q]);
    }
  }

  /** With no live row at the temporary name, the views that a promotion leaves alone are all the others. */
  lemma OthersSeeNothing(base: Base, s: State, s': State, p: string)
    requires Inv(s') && TmpFree(s, p) && p in s'.rows && s'.rows == s.rows[p := s'.rows[p]]
    requires forall q :: q != p && q != p + ".tmp" ==> View(base, s', q) == View(base, s, q)
    ensures forall q :: q != p ==> View(base, s', q) == View(base, s, q)
  {
    assert p + ".tmp" != p;
  }

  lemma WriteFileCarries(base: Base, stamps: set<int>, s: State, p: string, off: int, data: Bytes, io: Faults)
    requires Inv(s) && Past(stamps, s) && WriteFile(s, p, off, data, io).1.Ok?
    ensures Inv(WriteFile(s, p, off, data, io).0) && Carries(base, stamps, s, WriteFile(s, p, off, data, io).0)
  {
    WriteFileOnTree(base, s, p, off, data, io);
    OtherStampCarries(base, stamps, s, WriteFile(s, p, off, data, io).0, p);
  }

  lemma CreateFileCarries(base: Base, stamps: set<int>, s: State, p: string, mode: nat, io: Faults)
    requires Inv(s) && Past(stamps, s) && p != "" && CreateFile(s, p, mode, io).1.Ok?
    ensures Inv(CreateFile(s, p, mode, io).0) && Carries(base, stamps, s, CreateFile(s, p, mode, io).0)
  {
    CreateFileOnTree(base, s, p, mode, io);
    OtherStampCarries(base, stamps, s, CreateFile(s, p, mode, io).0, p);
  }

  lemma WriteCarries(base: Base, stamps: set<int>, s: State, p: string, off: int, data: Bytes, env: Env)
    requires Inv(s) && Past(stamps, s) && BaseOk(base) && p != "" && SafePromotion(base, s, p, env)
    requires Write(base, s, p, off, data, env).1.Ok?
    ensures Inv(Write(base, s, p, off, data, env).0) && Carries(base, stamps, s, Write(base, s, p, off, data, env).0)
  {
    var (s1, r1) := EnsureOverlay(base, s, p, env);
    var s' := Write(base, s, p, off, data, env).0;
    EnsureOverlayCarries(base, stamps, s, p, env);
    if r1.Ok? {
      WriteFileCarries(base, stamps, s1, p, off, data, env.io);
      CarriesTrans(base, stamps, s, s1, s');
    } else {
      var s2 := CreateFile(s1, p, 420, env.io).0;
      CreateFileCarries(base, stamps, s1, p, 420, env.io);
      WriteFileCarries(base, stamps, s2, p, off, data, env.io);
      CarriesTrans(base, stamps, s1, s2, s');
      CarriesTrans(base, stamps, s, s1, s');
    }
  }

  lemma TruncateCarries(base: Base, stamps: set<int>, s: State, p: string, size: int, env: Env)
    requires Inv(s) && Past(stamps, s) && BaseOk(base) && p != "" && SafePromotion(base, s, p, env)
    requires TruncateOp(base, s, p, size, env).1.Ok?
    ensures Inv(TruncateOp(base, s, p, size, env).0) && Carries(base, stamps, s, TruncateOp(base, s, p, size, env).0)
  {
    EnsureOverlayCarries(base, stamps, s, p, env);
    var s1 := EnsureOverlay(base, s, p, env).0;
    TruncateRowCarries(base, stamps, s1, p, size, env.io);
    CarriesTrans(base, stamps, s, s1, TruncateOp(base, s, p, size, env).0);
  }

  lemma TruncateRowCarries(base: Base, stamps: set<int>, s: State, p: string, size: int, io: Faults)
    requires Inv(s) && Past(stamps, s) && Truncate(s, p, size, io).1.Ok?
    ensures Inv(Truncate(s, p, size, io).0) && Carries(base, stamps, s, Truncate(s, p, size, io).0)
  {
    TruncateOnTree(base, s, p, size, io);
    OtherStampCarries(base, stamps, s, Truncate(s, p, size, io).0, p);
  }

  lemma RemoveCarries(base: Base, stamps: set<int>, s: State, p: string, io: Faults)
    requires Inv(s) && Past(stamps, s) && p != "" && Remove(s, p, io).1.Ok?
    ensures Inv(Remove(s, p, io).0) && Carries(base, stamps, s, Remove(s, p, io).0)
  {
    RemoveOnTree(base, s, p, io);
    OtherStampCarries(base, stamps, s, Remove(s, p, io).0, p);
  }

  lemma MkdirCarries(base: Base, stamps: set<int>, s: State, p: string, mode: nat, io: Faults)
    requires Inv(s) && Past(stamps, s) && p != "" && MkdirRow(s, p, mode, io).1.Ok?
    ensures Inv(MkdirRow(s, p, mode, io).0) && Carries(base, stamps, s, MkdirRow(s, p, mode, io).0)
  {
    MkdirOnTree(base, s, p, mode, io);
    OtherStampCarries(base, stamps, s, MkdirRow(s, p, mode, io).0, p);
  }

  lemma SetMtimeCarries(base: Base, stamps: set<int>, s: State, p: string, t: int, env: Env)
    requires Inv(s) && Past(stamps, s) && BaseOk(base) && p != "" && t !in stamps
    requires Promotes(base, s, p) && base.nodes[p].typ == TFile ==> SafePromotion(base, s, p, env)
    requires SetMtimeOp(base, s, p, t, env).1.Ok?
    ensures Inv(SetMtimeOp(base, s, p, t, env).0) && Carries(base, stamps, s, SetMtimeOp(base, s, p, t, env).0)
  {
    var s' := SetMtimeOp(base, s, p, t, env).0;
    if p in s.rows {
      SetMtimeKeeps(base, s, p, t, env.io);
      OtherStampCarries(base, stamps, s, s', p);
    } else {
      var s1 := if base.nodes[p].typ == TDir then MkdirRow(s, p, base.nodes[p].mode, env.promote).0
                else EnsureOverlay(base, s, p, env).0;
      if base.nodes[p].typ == TDir {
        MkdirCarries(base, stamps, s, p, base.nodes[p].mode, env.promote);
      } else {
        EnsureOverlayCarries(base, stamps, s, p, env);
      }
      SetMtimeKeeps(base, s1, p, t, env.io);
      OtherStampCarries(base, stamps, s1, s', p);
      CarriesTrans(base, stamps, s, s1, s');
    }
  }

  /** A rename moves one row's stamp with its bytes; only a whiteout gets a new stamp. */
  lemma MovedRowCarries(base: Base, stamps: set<int>, s: State, s': State, p: string, q: string)
    requires Past(stamps, s) && s'.clock == s.clock + 1 && p != q && p in s.rows
    requires q in s'.rows && s'.rows[q].mtime == s.rows[p].mtime && Payload(s', q) == Payload(s, p)
    requires Descends(base, p, s.rows[p], q, s'.rows[q])
    requires p in s'.rows ==> s'.rows[p].mtime == s.clock
    requires forall r :: r in s'.rows && r != p && r != q ==> r in s.rows && s'.rows[r] == s.rows[r]
    requires forall r :: r != p && r != q && r in s'.rows ==> View(base, s', r) == View(base, s, r)
    ensures Carries(base, stamps, s, s')
  {
    forall r | r in s'.rows && s'.rows[r].mtime in stamps ensures HasOrigin(base, s, s', r) {
      if r == q {
        assert Payload(s, p) == Payload(s', q);
      } else {
        assert r != p && View(base, s', r) == View(base, s, r);
        assert Payload(s, r) == Payload(s', r) && Descends(base, r, s.rows[r], r, s'.rows[r]);
      }
    }
  }

  /** The row that a rename leaves at the new path, and the row or gap at the old one. */
  predicate Moved(base: Base, s: State, s': State, p: string, q: string)
    requires p in s.rows
  {
    var e := s.rows[p];
    && s'.clock == s.clock + 1 && q !in s.rows && q in s'.rows && s'.rows[q].mtime == e.mtime
    && (if q in base.nodes && Markable(e.kind) then s'.rows[q].kind == Modify && s'.rows[q].oid == base.nodes[q].oid
        else s'.rows[q].kind == (if MovesBare(e.kind) then e.kind else Rename) && s'.rows[q].oid == e.oid)
    && (p in s'.rows <==> !MovesBare(e.kind)) && (p in s'.rows ==> s'.rows[p].mtime == s.clock)
    && (forall r :: r in s'.rows && r != p && r != q ==> r in s.rows && s'.rows[r] == s.rows[r])
    && (e.kind != Mkdir ==> forall r :: r in s.rows && r != p && r != q ==> r in s'.rows)
  }

  lemma RenameRowMoves(base: Base, s: State, p: string, q: string, io: Faults)
    requires RenameRow(s, p, q, io).1.Ok? && p != q && p in s.rows && !(q in base.nodes && Markable(s.rows[p].kind))
    requires RowOk(s.disk, p, s.rows[p])
    ensures Moved(base, s, RenameRow(s, p, q, io).0, p, q)
  {
    assert RenameRow(s, p, q, io).0.rows == RenamedRows(s.rows, p, q, s.clock);
    RenamedRowsAre(s.rows, p, q, s.clock);
  }

  lemma RenameAndMarkMoves(base: Base, s: State, p: string, q: string, io: Faults)
    requires p in s.rows && q in base.nodes && Markable(s.rows[p].kind) && RowOk(s.disk, p, s.rows[p])
    requires p != q && RenameAndMark(s, p, q, base.nodes[q].oid, io).1.Ok?
    ensures Moved(base, s, RenameAndMark(s, p, q, base.nodes[q].oid, io).0, p, q)
  {
  }

  lemma RenamedRowIs(base: Base, s: State, p: string, q: string, env: Env)
    requires Inv(s) && p != q && p in s.rows && RenameOp(base, s, p, q, env).1.Ok?
    ensures Moved(base, s, RenameOp(base, s, p, q, env).0, p, q) && !BaseDir(base, q) && !IsDeleted(s.rows[p])
  {
    assert RowOk(s.disk, p, s.rows[p]);
    if q in base.nodes && Markable(s.rows[p].kind) {
      RenameAndMarkMoves(base, s, p, q, env.io);
    } else {
      RenameRowMoves(base, s, p, q, env.io);
    }
  }

  lemma RenameOverlayCarries(base: Base, stamps: set<int>, s: State, p: string, q: string, env: Env)
    requires Inv(s) && Past(stamps, s) && BaseOk(base) && AncestorClosed(base) && p != "" && q != "" && p != q && p in s.rows
    requires RenameOp(base, s, p, q, env).1.Ok?
    ensures Carries(base, stamps, s, RenameOp(base, s, p, q, env).0)
  {
    var s' := RenameOp(base, s, p, q, env).0;
    RenamedRowIs(base, s, p, q, env);
    RenameExact(base, s, p, q, env);
    assert Descends(base, p, s.rows[p], q, s'.rows[q]);
    MovedRowCarries(base, stamps, s, s', p, q);
  }

  lemma MoveCarries(base: Base, stamps: set<int>, s: State, p: string, q: string, io: Faults)
    requires Inv(s) && Past(stamps, s) && p != "" && q != "" && p != q && !BaseDir(base, q)
    requires p in s.rows && s.rows[p].kind == Modify && RenameRow(s, p, q, io).1.Ok?
    ensures Carries(base, stamps, s, RenameRow(s, p, q, io).0)
  {
    var s' := RenameRow(s, p, q, io).0;
    RenameFileRow(base, s, p, q, io);
    assert s'.rows == RenamedRows(s.rows, p, q, s.clock);
    assert q !in s.rows;
    RenamedRowsAre(s.rows, p, q, s.clock);
    MovedRowCarries(base, stamps, s, s', p, q);
  }

  lemma RenameBaseCarries(base: Base, stamps: set<int>, s: State, p: string, q: string, env: Env)
    requires Inv(s) && Past(stamps, s) && BaseOk(base) && p != "" && q != "" && p != q && Promotes(base, s, p)
    requires TmpFree(s, p) && RenameOp(base, s, p, q, env).1.Ok?
    ensures Carries(base, stamps, s, RenameOp(base, s, p, q, env).0)
  {
    EnsureOverlayCarries(base, stamps, s, p, env);
    var s1 := EnsureOverlay(base, s, p, env).0;
    MoveCarries(base, stamps, s1, p, q, env.io);
    CarriesTrans(base, stamps, s, s1, RenameOp(base, s, p, q, env).0);
  }

  lemma RenameCarries(base: Base, stamps: set<int>, s: State, p: string, q: string, env: Env)
    requires Inv(s) && Past(stamps, s) && BaseOk(base) && AncestorClosed(base) && p != "" && q != ""
    requires Promotes(base, s, p) ==> Honest(base, p, env.hyd) && TmpFree(s, p)
    requires RenameOp(base, s, p, q, env).1.Ok?
    ensures Inv(RenameOp(base, s, p, q, env).0)
    ensures Carries(base, stamps, s, RenameOp(base, s, p, q, env).0)
  {
    if p == q {
      SameCarries(base, stamps, s);
    } else {
      RenameExact(base, s, p, q, env);
      if p in s.rows { RenameOverlayCarries(base, stamps, s, p, q, env); } else { RenameBaseCarries(base, stamps, s, p, q, env); }
    }
  }

  lemma StepCarries(base: Base, stamps: set<int>, s: State, c: Call)
    requires Inv(s) && Past(stamps, s) && BaseOk(base) && AncestorClosed(base) && Safe(base, stamps, s, c)
    ensures Inv(Step(base, s, c).0) && Carries(base, stamps, s, Step(base, s, c).0)
  {
    match c.op
    case OpWrite(p, off, data) => WriteCarries(base, stamps, s, p, off, data, c.env);
    case OpCreate(p, mode) => CreateFileCarries(base, stamps, s, p, mode, c.env.io);
    case OpTruncate(p, size) => TruncateCarries(base, stamps, s, p, size, c.env);
    case OpUnlink(p) => RemoveCarries(base, stamps, s, p, c.env.io);
    case OpMkdir(p, mode) => MkdirCarries(base, stamps, s, p, mode, c.env.io);
    case OpRename(p, q) => RenameCarries(base, stamps, s, p, q, c.env);
    case OpSetMtime(p, t) => SetMtimeCarries(base, stamps, s, p, t, c.env);
  }

  predicate SafeRun(base: Base, stamps: set<int>, s: State, calls: seq<Call>)
    decreases |calls|
  {
    calls == [] || (Safe(base, stamps, s, calls[0]) && SafeRun(base, stamps, Step(base, s, calls[0]).0, calls[1..]))
  }

  lemma {:induction false} RunCarries(base: Base, stamps: set<int>, s: State, calls: seq<Call>)
    requires Inv(s) && Past(stamps, s) && BaseOk(base) && AncestorClosed(base) && SafeRun(base, stamps, s, calls)
    ensures Carries(base, stamps, s, Run(base, s, calls)) && Inv(Run(base, s, calls))
    decreases |calls|
  {
    if calls == [] {
      SameCarries(base, stamps, s);
    } else {
      var s1 := Step(base, s, calls[0]).0;
      StepCarries(base, stamps, s, calls[0]);
      RunCarries(base, stamps, s1, calls[1..]);
      CarriesTrans(base, stamps, s, s1, Run(base, s1, calls[1..]));
    }
  }

  // ---- what the delete takes ----

  function Stamps(plan: seq<Entry>): set<int> { set i | 0 <= i < |plan| :: plan[i].mtime }

  /** A row that the guarded delete removes still has kind, object and stamp of the planned row, and
      holds the bytes that some row with that stamp held when the plan was made. */
  lemma DeleteTakesDescendants(base: Base, s: State, calls: seq<Call>, nodes: Nodes, plan: seq<Entry>, p: string)
    requires Inv(s) && BaseOk(base) && AncestorClosed(base) && PlanOf(nodes, s.rows, plan)
    requires Past(Stamps(plan), s) && SafeRun(base, Stamps(plan), s, calls)
    ensures var s2 := Run(base, s, calls);
            p in s2.rows && p !in DeleteAll(s2.rows, plan) ==>
              && p in s.rows && Stale(nodes, s.rows, s.rows[p]) && Matches(s2.rows, s.rows[p])
              && HasOrigin(base, s, s2, p)
  {
    var s2 := Run(base, s, calls);
    RunCarries(base, Stamps(plan), s, calls);
    DeleteAllIs(s2.rows, plan);
    if p in s2.rows && p !in DeleteAll(s2.rows, plan) {
      var i :| 0 <= i < |plan| && plan[i].path == p && Matches(s2.rows, plan[i]);
      assert s.rows[p] == plan[i] && plan[i].mtime in Stamps(plan);
    }
  }

  /** The delete takes bytes at p other than those that were planned to go. */
  ghost predicate Loses(base: Base, s: State, calls: seq<Call>, plan: seq<Entry>, p: string) {
    var s2 := Run(base, s, calls);
    && p in s2.rows && p !in DeleteAll(s2.rows, plan)
    && !(p in s.rows && Payload(s2, p) == Payload(s, p))
  }

  /** Row q has the stamp of row p, other bytes, and a way to p that makes it look like row p. */
  ghost predicate Rival(base: Base, s: State, p: string, q: string) {
    && p in s.rows && HoldsBytes(s.rows[p].kind) && q in s.rows && q != p
    && s.rows[q].mtime == s.rows[p].mtime && Payload(s, q) != Payload(s, p)
    && Descends(base, q, s.rows[q], p, s.rows[p])
  }

  lemma OnlyRivalsAreLost(base: Base, s: State, calls: seq<Call>, nodes: Nodes, plan: seq<Entry>, p: string)
    requires Inv(s) && BaseOk(base) && AncestorClosed(base) && PlanOf(nodes, s.rows, plan)
    requires Past(Stamps(plan), s) && SafeRun(base, Stamps(plan), s, calls)
    requires Loses(base, s, calls, plan, p)
    ensures exists q :: Rival(base, s, p, q)
  {
    var s2 := Run(base, s, calls);
    DeleteTakesDescendants(base, s, calls, nodes, plan, p);
    RunCarries(base, Stamps(plan), s, calls);
    assert RowOk(s.disk, p, s.rows[p]) && RowOk(s2.disk, p, s2.rows[p]);
    var q :| q in s.rows && s.rows[q].mtime == s2.rows[p].mtime && Payload(s, q) == Payload(s2, p)
             && Descends(base, q, s.rows[q], p, s2.rows[p]);
    assert Rival(base, s, p, q);
  }

  /** The guarded delete never loses bytes written after the plan was read.  Calls may run in between
      in any number and order; no planned row may share its stamp with a row of other bytes. */
  lemma GuardedDeleteLosesNothing(base: Base, s: State, calls: seq<Call>, nodes: Nodes, plan: seq<Entry>, p: string)
    requires Inv(s) && BaseOk(base) && AncestorClosed(base) && PlanOf(nodes, s.rows, plan)
    requires Past(Stamps(plan), s) && SafeRun(base, Stamps(plan), s, calls)
    requires forall q :: !Rival(base, s, p, q)
    ensures var s2 := Run(base, s, calls);
            p in s2.rows && p !in DeleteAll(s2.rows, plan) ==>
              && p in s.rows && Stale(nodes, s.rows, s.rows[p]) && Matches(s2.rows, s.rows[p])
              && Payload(s2, p) == Payload(s, p)
  {
    DeleteTakesDescendants(base, s, calls, nodes, plan, p);
    if Loses(base, s, calls, plan, p) { OnlyRivalsAreLost(base, s, calls, nodes, plan, p); }
  }
}
