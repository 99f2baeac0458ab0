/** A planned row can be lost if and only if it has a rival: the calls that put the rival in its place. */
module ReconcileRivals {
  import opened Wrappers
  import opened Paths
  import opened OverlayState
  import opened MergedView
  import opened EngineSpec
  import opened EngineRuns
  import opened ReconcileSpec
  import opened ReconcileRuns

  const CALM := Env(Cached(None), map[], map[])

  // ---- where there is room ----

  predicate NoFile(disk: Disk, a: string) { a in disk ==> disk[a].DirNode? }

  /** A file can be put at p: nothing above it is a file, and it is no directory itself. */
  predicate Spot(disk: Disk, p: string) {
    IsKey(p) && p != "." && MkdirAll(disk, Dir(p)).Some? && (p in disk ==> disk[p].FileNode?)
  }

  /** Every file of `after` that was not one of `disk` is among the names. */
  ghost predicate NewFiles(disk: Disk, after: Disk, names: set<string>) {
    forall a :: a in after && after[a].FileNode? ==> a in names || (a in disk && disk[a].FileNode?)
  }

  /** Every name in sight is shorter than n. */
  ghost predicate Short(base: Base, s: State, n: nat) {
    n > 0 && (forall p :: p in s.rows || p in s.disk || p in base.nodes ==> |p| < n)
  }

  function Zs(n: nat): string { seq(n, _ => 'z') }

  lemma ZsIsFresh(n: nat)
    requires n > 0
    ensures IsKey(Zs(n)) && Zs(n) != "." && Zs(n) != "" && Dir(Zs(n)) == "." && |Zs(n)| == n
  {
    SplitNoSlash(Zs(n), "");
    assert Zs(n)[0] == 'z';
    DirOfChild(".", Zs(n));
  }

  lemma NotAboveItself(p: string)
    requires IsKey(p) && p != "."
    ensures p !in Dirs(Dir(p)) && forall a :: a in Dirs(Dir(p)) ==> |a| <= |p|
  {
    var name := KeyHasParent(p);
    DirsAreShort(Dir(p));
    DotIsShort(p);
  }

  lemma DirsAreShort(d: string)
    ensures forall a :: a in Dirs(d) ==> |a| <= |d|
  {
  }

  lemma DotIsShort(p: string)
    requires IsKey(p) && p != "."
    ensures |p| >= 1 && p !in Dirs(".") && |"."| == 1
  {
    KeyIsClean(p);
    assert Dirs(".") == {"."};
  }

  lemma SpotStays(disk: Disk, after: Disk, p: string, names: set<string>)
    requires Spot(disk, p) && NewFiles(disk, after, names)
    requires forall a :: a in names && a in after ==> a !in Dirs(Dir(p))
    requires p in after ==> after[p].FileNode?
    ensures Spot(after, p)
  {
  }

  // ---- single calls that succeed ----

  /** What a call leaves alone: the rows other than p and q, and what they show. */
  ghost predicate Elsewhere(base: Base, s: State, s': State, p: string, q: string) {
    forall r :: r != p && r != q && r in s.rows ==> r in s'.rows && s'.rows[r] == s.rows[r] && View(base, s', r) == View(base, s, r)
  }

  lemma UnlinkStep(base: Base, s: State, p: string)
    requires Inv(s) && Spot(s.disk, p)
    ensures var (s', r) := Remove(s, p, map[]);
            && r.Ok? && Inv(s') && s'.rows.Keys == s.rows.Keys + {p} && Elsewhere(base, s, s', p, p)
            && (s'.disk == s.disk || s'.disk == s.disk - {p}) && Spot(s'.disk, p)
  {
    KeyIsClean(p);
    RemoveOnTree(base, s, p, map[]);
    if p in s.rows { assert RowOk(s.disk, p, s.rows[p]); }
    var s' := Remove(s, p, map[]).0;
    SpotStays(s.disk, s'.disk, p, {});
  }

  lemma OneRowChanges(base: Base, s: State, s': State, p: string)
    requires p in s'.rows && s'.rows == s.rows[p := s'.rows[p]] && forall q :: q != p ==> View(base, s', q) == View(base, s, q)
    ensures Elsewhere(base, s, s', p, p) && s'.rows.Keys == s.rows.Keys + {p}
  {
  }

  lemma CreateStep(base: Base, s: State, p: string)
    requires Inv(s) && Spot(s.disk, p)
    ensures var (s', r) := CreateFile(s, p, 420, map[]);
            && r.Ok? && Inv(s') && s'.rows.Keys == s.rows.Keys + {p} && s'.rows[p].kind == Create
            && Elsewhere(base, s, s', p, p) && p in s'.disk && s'.disk[p].FileNode?
            && NewFiles(s.disk, s'.disk, {p}) && s'.disk.Keys == s.disk.Keys + Dirs(Dir(p)) + {p}
  {
    KeyIsClean(p);
    NotAboveItself(p);
    CreateSucceeds(s, p);
    CreateFileOnTree(base, s, p, 420, map[]);
    OneRowChanges(base, s, CreateFile(s, p, 420, map[]).0, p);
  }

  lemma CreateSucceeds(s: State, p: string)
    requires Spot(s.disk, p) && p !in Dirs(Dir(p))
    ensures var (s', r) := CreateFile(s, p, 420, map[]);
            && r.Ok? && s'.rows == s.rows[p := Entry(p, Create, p, 420, 0, s.clock, s.clock, "", "")]
            && p in s'.disk && s'.disk[p].FileNode?
            && NewFiles(s.disk, s'.disk, {p}) && s'.disk.Keys == s.disk.Keys + Dirs(Dir(p)) + {p}
  {
    var dirs := MkdirAll(s.disk, Dir(p)).value;
    assert dirs.Keys == s.disk.Keys + Dirs(Dir(p));
  }

  /** Moving a file row to a name nobody has. */
  lemma MoveStep(base: Base, s: State, p: string, q: string)
    requires Inv(s) && BaseOk(base) && AncestorClosed(base) && p != "" && p != q
    requires p in s.rows && HoldsBytes(s.rows[p].kind) && q !in s.rows && !BaseDir(base, q) && Spot(s.disk, q)
    ensures var (s', r) := RenameOp(base, s, p, q, CALM);
            && r.Ok? && Inv(s') && q in s'.rows && s'.rows[q].mtime == s.rows[p].mtime && Payload(s', q) == Payload(s, p)
            && (q in base.nodes && Markable(s.rows[p].kind) ==> s'.rows[q].kind == Modify && s'.rows[q].oid == base.nodes[q].oid)
            && (!(q in base.nodes && Markable(s.rows[p].kind)) ==>
                  s'.rows[q].kind == (if MovesBare(s.rows[p].kind) then s.rows[p].kind else Rename) && s'.rows[q].oid == s.rows[p].oid)
            && (p in s'.rows <==> !MovesBare(s.rows[p].kind)) && Elsewhere(base, s, s', p, q)
            && s'.rows.Keys <= s.rows.Keys + {q}
            && p !in s'.disk && NewFiles(s.disk, s'.disk, {q}) && s'.disk.Keys <= s.disk.Keys + Dirs(Dir(q)) + {q}
            && forall a :: a in s'.disk && a != q && a !in Dirs(Dir(q)) ==> a in s.disk && s'.disk[a] == s.disk[a]
  {
    KeyIsClean(q);
    NotAboveItself(q);
    assert RowOk(s.disk, p, s.rows[p]);
    MoveSucceeds(base, s, p, q);
    RenameExact(base, s, p, q, CALM);
    RenamedRowIs(base, s, p, q, CALM);
  }

  lemma MoveSucceeds(base: Base, s: State, p: string, q: string)
    requires p in s.rows && RowOk(s.disk, p, s.rows[p]) && p != q && q !in Dirs(Dir(q))
    requires HoldsBytes(s.rows[p].kind) && q !in s.rows && !BaseDir(base, q) && Spot(s.disk, q)
    ensures var (s', r) := RenameOp(base, s, p, q, CALM);
            && r.Ok? && p !in s'.disk && NewFiles(s.disk, s'.disk, {q}) && s'.disk.Keys <= s.disk.Keys + Dirs(Dir(q)) + {q}
            && forall a :: a in s'.disk && a != q && a !in Dirs(Dir(q)) ==> a in s.disk && s'.disk[a] == s.disk[a]
  {
    MkdirAllKeeps(s.disk, Dir(q));
    var dirs := MkdirAll(s.disk, Dir(q)).value;
    MoveFileKeeps(dirs, p, q);
    assert Move(dirs, p, q) == Some((dirs - {p})[q := dirs[p]]);
  }

  // ---- putting one file in the place of another ----

  lemma RunCons(base: Base, stamps: set<int>, s: State, c: Call, cs: seq<Call>)
    ensures Run(base, s, [c] + cs) == Run(base, Step(base, s, c).0, cs)
    ensures SafeRun(base, stamps, s, [c] + cs) <==> Safe(base, stamps, s, c) && SafeRun(base, stamps, Step(base, s, c).0, cs)
  {
    assert ([c] + cs)[1..] == cs;
  }

  lemma {:induction false} RunAppend(base: Base, stamps: set<int>, s: State, cs: seq<Call>, ds: seq<Call>)
    ensures Run(base, s, cs + ds) == Run(base, Run(base, s, cs), ds)
    ensures SafeRun(base, stamps, s, cs + ds) <==> SafeRun(base, stamps, s, cs) && SafeRun(base, stamps, Run(base, s, cs), ds)
    decreases |cs|
  {
    if cs == [] {
      assert cs + ds == ds;
    } else {
      assert (cs + ds)[1..] == cs[1..] + ds;
      RunAppend(base, stamps, Step(base, s, cs[0]).0, cs[1..], ds);
    }
  }

  /** p is deleted, made anew and moved out of the way: nothing is left at p. */
  function FreeSpot(p: string, z: string): seq<Call> {
    [Call(OpUnlink(p), CALM)] + ([Call(OpCreate(p, 420), CALM)] + ([Call(OpRename(p, z), CALM)] + []))
  }

  ghost predicate Roomy(base: Base, s: State, n: nat) {
    Inv(s) && BaseOk(base) && AncestorClosed(base) && Short(base, s, n) && NoFile(s.disk, ".")
  }

  lemma FreshSpot(base: Base, s: State, n: nat)
    requires Roomy(base, s, n)
    ensures Spot(s.disk, Zs(n)) && Zs(n) !in s.rows && Zs(n) !in base.nodes && Zs(n) !in s.disk
  {
    ZsIsFresh(n);
    assert Dirs(".") == {"."};
  }

  lemma RoomyAfter(base: Base, s: State, s': State, p: string, n: nat)
    requires Roomy(base, s, n) && Inv(s') && IsKey(p) && p != "." && |p| < n
    requires s'.rows.Keys <= s.rows.Keys + {p} && s'.disk.Keys <= s.disk.Keys + Dirs(Dir(p)) + {p} && NewFiles(s.disk, s'.disk, {p})
    ensures Roomy(base, s', n)
  {
    NotAboveItself(p);
  }

  lemma StaysRoomy(base: Base, s: State, p: string, q: string, n: nat)
    requires Roomy(base, s, n) && Spot(s.disk, q) && |q| < n && p != "" && p != q
    requires p in s.rows && HoldsBytes(s.rows[p].kind) && q !in s.rows && !BaseDir(base, q)
    ensures Roomy(base, RenameOp(base, s, p, q, CALM).0, n)
  {
    MoveStep(base, s, p, q);
    RoomyAfter(base, s, RenameOp(base, s, p, q, CALM).0, q, n);
  }

  lemma Renewed(base: Base, s: State, p: string, n: nat)
    requires Roomy(base, s, n) && Spot(s.disk, p) && |p| < n
    ensures var s1 := Remove(s, p, map[]).0;
            var s2 := CreateFile(s1, p, 420, map[]).0;
            && Remove(s, p, map[]).1.Ok? && CreateFile(s1, p, 420, map[]).1.Ok?
            && Roomy(base, s2, n) && p in s2.rows && s2.rows[p].kind == Create
            && Elsewhere(base, s, s2, p, p) && NewFiles(s.disk, s2.disk, {p})
  {
    UnlinkStep(base, s, p);
    var s1 := Remove(s, p, map[]).0;
    RoomyAfter(base, s, s1, p, n);
    CreateStep(base, s1, p);
    RoomyAfter(base, s1, CreateFile(s1, p, 420, map[]).0, p, n);
  }

  lemma MovedOut(base: Base, s: State, s2: State, p: string, n: nat)
    requires Spot(s.disk, p) && |p| < n && Roomy(base, s2, n) && p in s2.rows && s2.rows[p].kind == Create
    requires Elsewhere(base, s, s2, p, p) && NewFiles(s.disk, s2.disk, {p})
    ensures var (s3, r) := RenameOp(base, s2, p, Zs(n), CALM);
            && r.Ok? && Roomy(base, s3, n + 1) && p !in s3.rows && Spot(s3.disk, p) && p !in s3.disk
            && Elsewhere(base, s, s3, p, Zs(n)) && NewFiles(s.disk, s3.disk, {Zs(n)})
  {
    var z := Zs(n);
    ZsIsFresh(n);
    KeyIsClean(p);
    FreshSpot(base, s2, n);
    MoveStep(base, s2, p, z);
    StaysRoomy(base, s2, p, z, n + 1);
    NotAboveItself(p);
    SpotStays(s.disk, RenameOp(base, s2, p, z, CALM).0.disk, p, {z});
  }

  lemma SpotFreed(base: Base, stamps: set<int>, s: State, p: string, n: nat)
    requires Roomy(base, s, n) && Spot(s.disk, p) && |p| < n
    ensures SafeRun(base, stamps, s, FreeSpot(p, Zs(n)))
    ensures var s' := Run(base, s, FreeSpot(p, Zs(n)));
            && Roomy(base, s', n + 1) && p !in s'.rows && Spot(s'.disk, p) && p !in s'.disk
            && Elsewhere(base, s, s', p, Zs(n)) && NewFiles(s.disk, s'.disk, {Zs(n)})
  {
    KeyIsClean(p);
    ZsIsFresh(n);
    Renewed(base, s, p, n);
    MovedOut(base, s, CreateFile(Remove(s, p, map[]).0, p, 420, map[]).0, p, n);
    FreedCalls(base, stamps, s, p, Zs(n));
  }

  lemma FreedCalls(base: Base, stamps: set<int>, s: State, p: string, z: string)
    requires p != "" && z != ""
    ensures var s1 := Remove(s, p, map[]).0;
            var s2 := CreateFile(s1, p, 420, map[]).0;
            && Run(base, s, FreeSpot(p, z)) == RenameOp(base, s2, p, z, CALM).0
            && (Remove(s, p, map[]).1.Ok? && CreateFile(s1, p, 420, map[]).1.Ok? && p in s2.rows && RenameOp(base, s2, p, z, CALM).1.Ok?
                ==> SafeRun(base, stamps, s, FreeSpot(p, z)))
  {
    var s1 := Remove(s, p, map[]).0;
    var s2 := CreateFile(s1, p, 420, map[]).0;
    RunCons(base, stamps, s2, Call(OpRename(p, z), CALM), []);
    RunCons(base, stamps, s1, Call(OpCreate(p, 420), CALM), [Call(OpRename(p, z), CALM)] + []);
    RunCons(base, stamps, s, Call(OpUnlink(p), CALM), [Call(OpCreate(p, 420), CALM)] + ([Call(OpRename(p, z), CALM)] + []));
  }

  /** q takes the place of p. */
  function TakePlace(p: string, q: string, z: string): seq<Call> {
    FreeSpot(p, z) + [Call(OpRename(q, p), CALM)]
  }

  /** Row e at p is what moving row e0 there makes of it. */
  predicate MovedTo(base: Base, e0: Entry, p: string, e: Entry) {
    && e.mtime == e0.mtime
    && (if p in base.nodes && Markable(e0.kind) then e.kind == Modify && e.oid == base.nodes[p].oid
        else e.kind == (if MovesBare(e0.kind) then e0.kind else Rename) && e.oid == e0.oid)
  }

  lemma TakePlaceCalls(base: Base, stamps: set<int>, s: State, p: string, q: string, z: string)
    requires p != "" && q != ""
    ensures var s1 := Run(base, s, FreeSpot(p, z));
            && Run(base, s, TakePlace(p, q, z)) == RenameOp(base, s1, q, p, CALM).0
            && (SafeRun(base, stamps, s, FreeSpot(p, z)) && q in s1.rows && RenameOp(base, s1, q, p, CALM).1.Ok?
                ==> SafeRun(base, stamps, s, TakePlace(p, q, z)))
  {
    var c := Call(OpRename(q, p), CALM);
    var s1 := Run(base, s, FreeSpot(p, z));
    RunAppend(base, stamps, s, FreeSpot(p, z), [c]);
    assert [c] + [] == [c];
    RunCons(base, stamps, s1, c, []);
  }

  lemma PlaceTaken(base: Base, stamps: set<int>, s: State, p: string, q: string, n: nat)
    requires Roomy(base, s, n) && Spot(s.disk, p) && |p| < n && !BaseDir(base, p)
    requires q in s.rows && HoldsBytes(s.rows[q].kind) && q != p
    ensures SafeRun(base, stamps, s, TakePlace(p, q, Zs(n)))
    ensures var s' := Run(base, s, TakePlace(p, q, Zs(n)));
            && Roomy(base, s', n + 1) && p in s'.rows && MovedTo(base, s.rows[q], p, s'.rows[p])
            && Payload(s', p) == Payload(s, q) && NewFiles(s.disk, s'.disk, {p, Zs(n)})
            && forall r :: r != p && r != q && r != Zs(n) && r in s.rows ==> r in s'.rows && s'.rows[r] == s.rows[r]
  {
    var z := Zs(n);
    ZsIsFresh(n);
    KeyIsClean(p);
    assert q != "" && |q| < n by { assert RowOk(s.disk, q, s.rows[q]); }
    SpotFreed(base, stamps, s, p, n);
    TakePlaceCalls(base, stamps, s, p, q, z);
    MovedIn(base, s, Run(base, s, FreeSpot(p, z)), p, q, n);
  }

  lemma MovedIn(base: Base, s: State, s1: State, p: string, q: string, n: nat)
    requires Roomy(base, s1, n + 1) && p !in s1.rows && Spot(s1.disk, p) && Elsewhere(base, s, s1, p, Zs(n))
    requires |p| < n && !BaseDir(base, p) && NewFiles(s.disk, s1.disk, {Zs(n)})
    requires q in s.rows && HoldsBytes(s.rows[q].kind) && q != p && q != "" && q != Zs(n)
    ensures var (s', r) := RenameOp(base, s1, q, p, CALM);
            && r.Ok? && q in s1.rows && Roomy(base, s', n + 1) && p in s'.rows && MovedTo(base, s.rows[q], p, s'.rows[p])
            && Payload(s', p) == Payload(s, q) && NewFiles(s.disk, s'.disk, {p, Zs(n)})
            && forall r :: r != p && r != q && r != Zs(n) && r in s.rows ==> r in s'.rows && s'.rows[r] == s.rows[r]
  {
    assert s1.rows[q] == s.rows[q] && View(base, s1, q) == View(base, s, q);
    MoveStep(base, s1, q, p);
    StaysRoomy(base, s1, q, p, n + 1);
  }

  // ---- the exact condition ----

  /** The upper directory has room: where a row or the base has a file, a file can be put. */
  ghost predicate HasRoom(base: Base, s: State) {
    && NoFile(s.disk, ".")
    && (forall p :: p in s.rows && HoldsBytes(s.rows[p].kind) ==> Spot(s.disk, p))
    && (forall p :: p in base.nodes && base.nodes[p].typ != TDir ==> Spot(s.disk, p))
  }

  lemma OneCall(base: Base, stamps: set<int>, s: State, p: string, q: string)
    requires p in s.rows && p != "" && q != "" && RenameOp(base, s, p, q, CALM).1.Ok?
    ensures var cs := [Call(OpRename(p, q), CALM)];
            SafeRun(base, stamps, s, cs) && Run(base, s, cs) == RenameOp(base, s, p, q, CALM).0
  {
    assert [Call(OpRename(p, q), CALM)] + [] == [Call(OpRename(p, q), CALM)];
    RunCons(base, stamps, s, Call(OpRename(p, q), CALM), []);
  }

  /** The file at p now has the fresh name, with kind, object, stamp and bytes as a move leaves them. */
  ghost predicate PutAside(base: Base, s: State, s': State, p: string, n: nat) {
    var z := Zs(n);
    && p in s.rows && Roomy(base, s', n + 1) && z in s'.rows && p != z
    && s'.rows[z].mtime == s.rows[p].mtime && s'.rows[z].oid == s.rows[p].oid && Payload(s', z) == Payload(s, p)
    && s'.rows[z].kind == (if MovesBare(s.rows[p].kind) then s.rows[p].kind else Rename)
    && p !in s'.disk && NewFiles(s.disk, s'.disk, {z})
    && (forall r :: r != p && r != z && r in s.rows ==> r in s'.rows && s'.rows[r] == s.rows[r])
    && forall a :: a in s'.disk && a != z && a != "." ==> a in s.disk && s'.disk[a] == s.disk[a]
  }

  /** Moving a file to a fresh name. */
  lemma Aside(base: Base, s: State, p: string, n: nat)
    requires Roomy(base, s, n) && p in s.rows && HoldsBytes(s.rows[p].kind)
    ensures RenameOp(base, s, p, Zs(n), CALM).1.Ok? && p != "" && Zs(n) != "" && |p| < n
    ensures PutAside(base, s, RenameOp(base, s, p, Zs(n), CALM).0, p, n)
  {
    assert RowOk(s.disk, p, s.rows[p]);
    ZsIsFresh(n);
    FreshSpot(base, s, n);
    assert Dirs(".") == {"."};
    MoveStep(base, s, p, Zs(n));
    StaysRoomy(base, s, p, Zs(n), n + 1);
  }

  /** The way round for a created file that is to look like a renamed one: onto a base file with the
      right object name, and away from there again. */
  function Disguise(r: string, q: string, n: nat): seq<Call> {
    [Call(OpRename(q, Zs(n)), CALM)] + (TakePlace(r, Zs(n), Zs(n + 1)) + [Call(OpRename(r, Zs(n + 2)), CALM)])
  }

  /** The states between its three parts. */
  lemma DisguisePlace(base: Base, stamps: set<int>, s: State, q: string, r: string, n: nat)
    requires Roomy(base, s, n) && HasRoom(base, s) && q in s.rows && Markable(s.rows[q].kind)
    requires r in base.nodes && base.nodes[r].typ != TDir
    ensures var s1 := RenameOp(base, s, q, Zs(n), CALM).0;
            var s2 := Run(base, s1, TakePlace(r, Zs(n), Zs(n + 1)));
            && SafeRun(base, stamps, s1, TakePlace(r, Zs(n), Zs(n + 1)))
            && Roomy(base, s2, n + 2) && r in s2.rows && s2.rows[r].kind == Modify && s2.rows[r].oid == base.nodes[r].oid
            && s2.rows[r].mtime == s.rows[q].mtime && Payload(s2, r) == Payload(s, q)
            && NewFiles(s.disk, s2.disk, {Zs(n), r, Zs(n + 1)})
            && forall x :: x != r && x != q && |x| < n && x in s.rows ==> x in s2.rows && s2.rows[x] == s.rows[x]
  {
    Aside(base, s, q, n);
    AsideKeepsSpot(base, s, q, n, r);
    var s1 := RenameOp(base, s, q, Zs(n), CALM).0;
    PlaceTaken(base, stamps, s1, r, Zs(n), n + 1);
    PlacedRow(base, s, s1, Run(base, s1, TakePlace(r, Zs(n), Zs(n + 1))), q, r, n);
  }

  lemma AsideKeepsSpot(base: Base, s: State, q: string, n: nat, r: string)
    requires Roomy(base, s, n) && q in s.rows && HoldsBytes(s.rows[q].kind) && Spot(s.disk, r) && |r| < n
    ensures Spot(RenameOp(base, s, q, Zs(n), CALM).0.disk, r)
  {
    Aside(base, s, q, n);
    NotAboveItself(r);
    SpotStays(s.disk, RenameOp(base, s, q, Zs(n), CALM).0.disk, r, {Zs(n)});
  }

  lemma PlacedRow(base: Base, s: State, s1: State, s2: State, q: string, r: string, n: nat)
    requires q in s.rows && r in base.nodes && r in s2.rows && Zs(n) in s1.rows && Markable(s1.rows[Zs(n)].kind)
    requires MovedTo(base, s1.rows[Zs(n)], r, s2.rows[r]) && s1.rows[Zs(n)].mtime == s.rows[q].mtime
    requires NewFiles(s.disk, s1.disk, {Zs(n)}) && NewFiles(s1.disk, s2.disk, {r, Zs(n + 1)})
    requires forall x :: x != q && x != Zs(n) && x in s.rows ==> x in s1.rows && s1.rows[x] == s.rows[x]
    requires forall x :: x != r && x != Zs(n) && x != Zs(n + 1) && x in s1.rows ==> x in s2.rows && s2.rows[x] == s1.rows[x]
    ensures s2.rows[r].kind == Modify && s2.rows[r].oid == base.nodes[r].oid && s2.rows[r].mtime == s.rows[q].mtime
    ensures NewFiles(s.disk, s2.disk, {Zs(n), r, Zs(n + 1)})
    ensures forall x :: x != r && x != q && |x| < n && x in s.rows ==> x in s2.rows && s2.rows[x] == s.rows[x]
  {
    assert |Zs(n)| == n && |Zs(n + 1)| == n + 1;
  }

  lemma Disguised(base: Base, stamps: set<int>, s: State, p: string, q: string, r: string, n: nat)
    requires Roomy(base, s, n) && HasRoom(base, s) && q in s.rows && Markable(s.rows[q].kind)
    requires r in base.nodes && base.nodes[r].typ != TDir
    requires p in s.rows && HoldsBytes(s.rows[p].kind) && p != q
    ensures SafeRun(base, stamps, s, Disguise(r, q, n))
    ensures var s', z := Run(base, s, Disguise(r, q, n)), Zs(n + 2);
            && Roomy(base, s', n + 3) && Spot(s'.disk, p) && z in s'.rows && z != p && |p| < n
            && s'.rows[z].kind == Rename && s'.rows[z].mtime == s.rows[q].mtime && s'.rows[z].oid == base.nodes[r].oid
            && Payload(s', z) == Payload(s, q)
  {
    DisguiseCalls(base, stamps, s, q, r, n);
    DisguisePlace(base, stamps, s, q, r, n);
    var s2 := Run(base, RenameOp(base, s, q, Zs(n), CALM).0, TakePlace(r, Zs(n), Zs(n + 1)));
    Aside(base, s2, r, n + 2);
    DisguisedRow(base, s, s2, Run(base, s, Disguise(r, q, n)), p, q, r, n);
  }

  /** The last part: the row goes from r to a fresh name, and the place p is as good as it was. */
  lemma DisguisedRow(base: Base, s: State, s2: State, s3: State, p: string, q: string, r: string, n: nat)
    requires Roomy(base, s, n) && HasRoom(base, s) && p in s.rows && HoldsBytes(s.rows[p].kind) && |p| < n
    requires NewFiles(s.disk, s2.disk, {Zs(n), r, Zs(n + 1)}) && PutAside(base, s2, s3, r, n + 2)
    requires p != r ==> p in s2.rows && s2.rows[p] == s.rows[p]
    ensures Spot(s3.disk, p) && Zs(n + 2) != p
  {
    assert |Zs(n + 2)| == n + 2;
    SpotSurvives(base, s, s2, s3, p, r, n);
  }

  lemma DisguiseCalls(base: Base, stamps: set<int>, s: State, q: string, r: string, n: nat)
    requires Roomy(base, s, n) && HasRoom(base, s) && q in s.rows && Markable(s.rows[q].kind)
    requires r in base.nodes && base.nodes[r].typ != TDir
    ensures SafeRun(base, stamps, s, Disguise(r, q, n))
    ensures var s1 := RenameOp(base, s, q, Zs(n), CALM).0;
            var s2 := Run(base, s1, TakePlace(r, Zs(n), Zs(n + 1)));
            Run(base, s, Disguise(r, q, n)) == RenameOp(base, s2, r, Zs(n + 2), CALM).0
  {
    Aside(base, s, q, n);
    DisguisePlace(base, stamps, s, q, r, n);
    var s1 := RenameOp(base, s, q, Zs(n), CALM).0;
    var place := TakePlace(r, Zs(n), Zs(n + 1));
    var s2 := Run(base, s1, place);
    Aside(base, s2, r, n + 2);
    OneCall(base, stamps, s, q, Zs(n));
    OneCall(base, stamps, s2, r, Zs(n + 2));
    RunAppend(base, stamps, s1, place, [Call(OpRename(r, Zs(n + 2)), CALM)]);
    RunAppend(base, stamps, s, [Call(OpRename(q, Zs(n)), CALM)], place + [Call(OpRename(r, Zs(n + 2)), CALM)]);
  }

  lemma SpotSurvives(base: Base, s: State, s2: State, s3: State, p: string, r: string, n: nat)
    requires Spot(s.disk, p) && |p| < n && NewFiles(s.disk, s2.disk, {Zs(n), r, Zs(n + 1)}) && NewFiles(s2.disk, s3.disk, {Zs(n + 2)})
    requires Inv(s3) && r !in s3.disk && (p != r ==> p in s3.rows && HoldsBytes(s3.rows[p].kind))
    ensures Spot(s3.disk, p)
  {
    NotAboveItself(p);
    if p != r { assert RowOk(s3.disk, p, s3.rows[p]); }
    SpotStays(s.disk, s3.disk, p, {Zs(n), r, Zs(n + 1), Zs(n + 2)});
  }

  /** Some length exceeds every name in sight. */
  lemma {:induction false} Longest(names: set<string>) returns (n: nat)
    ensures n > 0 && forall p :: p in names ==> |p| < n
    decreases names
  {
    if names == {} {
      n := 1;
    } else {
      var p :| p in names;
      var m := Longest(names - {p});
      n := if m > |p| then m else |p| + 1;
    }
  }

  /** The run that brings a rival to the place of row p. */
  lemma RivalArrives(base: Base, stamps: set<int>, s: State, p: string, q: string, n: nat) returns (calls: seq<Call>)
    requires Roomy(base, s, n) && HasRoom(base, s) && Rival(base, s, p, q) && s.rows[p].kind != Symlink
    ensures SafeRun(base, stamps, s, calls)
    ensures var s2, e := Run(base, s, calls), s.rows[p];
            && p in s2.rows && s2.rows[p].kind == e.kind && s2.rows[p].oid == e.oid && s2.rows[p].mtime == e.mtime
            && Payload(s2, p) == Payload(s, q)
  {
    assert |p| < n;
    var z := Zs(n);
    if s.rows[p].kind == Rename && Markable(s.rows[q].kind) {
      var r :| BaseFileOf(base, r, s.rows[p].oid);
      Disguised(base, stamps, s, p, q, r, n);
      var s1 := Run(base, s, Disguise(r, q, n));
      PlaceTaken(base, stamps, s1, p, Zs(n + 2), n + 3);
      RunAppend(base, stamps, s, Disguise(r, q, n), TakePlace(p, Zs(n + 2), Zs(n + 3)));
      calls := Disguise(r, q, n) + TakePlace(p, Zs(n + 2), Zs(n + 3));
    } else {
      PlaceTaken(base, stamps, s, p, q, n);
      calls := TakePlace(p, q, Zs(n));
    }
  }

  /** Between the two halves of a reconcile, calls exist that make the delete take other bytes than
      planned at p, exactly when the table has a rival of the planned row. */
  lemma LosableIffRival(base: Base, s: State, nodes: Nodes, plan: seq<Entry>, p: string)
    requires Inv(s) && BaseOk(base) && AncestorClosed(base) && HasRoom(base, s)
    requires PlanOf(nodes, s.rows, plan) && Past(Stamps(plan), s) && p in s.rows && Stale(nodes, s.rows, s.rows[p])
    ensures (exists calls :: SafeRun(base, Stamps(plan), s, calls) && Loses(base, s, calls, plan, p))
       <==> (exists q :: Rival(base, s, p, q))
  {
    forall calls | SafeRun(base, Stamps(plan), s, calls) && Loses(base, s, calls, plan, p) ensures exists q :: Rival(base, s, p, q) {
      OnlyRivalsAreLost(base, s, calls, nodes, plan, p);
    }
    if q :| Rival(base, s, p, q) {
      var n := Longest(s.rows.Keys + s.disk.Keys + base.nodes.Keys);
      var calls := RivalArrives(base, Stamps(plan), s, p, q, n);
      var s2 := Run(base, s, calls);
      DeleteAllIs(s2.rows, plan);
      assert RowOk(s.disk, p, s.rows[p]);
      var i :| 0 <= i < |plan| && plan[i] == s.rows[p];
      assert plan[i].path == p && Matches(s2.rows, plan[i]);
      assert Loses(base, s, calls, plan, p);
    }
  }

  // ---- a concrete loss ----

  /** "mv x z; mv y x", for created files that are not in the base. */
  lemma TwoMoves(base: Base, s: State, x: string, y: string, z: string)
    requires Inv(s) && BaseOk(base) && AncestorClosed(base) && x != y && y != z && x != z && x != "" && y != "" && z != ""
    requires x in s.rows && y in s.rows && s.rows[x].kind == Create && s.rows[y].kind == Create
    requires z !in s.rows && x !in base.nodes && z !in base.nodes && Spot(s.disk, x) && Spot(s.disk, z) && z !in Dirs(Dir(x))
    ensures var cs := [Call(OpRename(x, z), CALM)] + [Call(OpRename(y, x), CALM)];
            var s2 := Run(base, s, cs);
            && SafeRun(base, {s.rows[x].mtime}, s, cs) && x in s2.rows && s2.rows[x].kind == Create
            && s2.rows[x].oid == s.rows[y].oid && s2.rows[x].mtime == s.rows[y].mtime && Payload(s2, x) == Payload(s, y)
  {
    MoveStep(base, s, x, z);
    var s1 := RenameOp(base, s, x, z, CALM).0;
    SpotStays(s.disk, s1.disk, x, {z});
    assert s1.rows[y] == s.rows[y] && View(base, s1, y) == View(base, s, y);
    MoveStep(base, s1, y, x);
    OneCall(base, {s.rows[x].mtime}, s, x, z);
    OneCall(base, {s.rows[x].mtime}, s1, y, x);
    RunAppend(base, {s.rows[x].mtime}, s, [Call(OpRename(x, z), CALM)], [Call(OpRename(y, x), CALM)]);
  }

  const NOTHING := Base(map[], map[])
  const TWINS := State(map["x" := Entry("x", Create, "x", 420, 1, 0, 0, "", ""), "y" := Entry("y", Create, "y", 420, 1, 0, 0, "", "")],
                       map["." := DirNode, "x" := FileNode([1]), "y" := FileNode([2])], 1)
  const X_COMMITTED: Nodes := map["x" := BaseNode(TFile, 420, "oid")]
  const SWAP := [Call(OpRename("x", "z"), CALM)] + [Call(OpRename("y", "x"), CALM)]

  lemma TwinsSpot(name: string)
    requires |name| == 1 && name[0] != '/' && name[0] != '.' && NoFile(TWINS.disk, ".")
    requires name in TWINS.disk ==> TWINS.disk[name].FileNode?
    ensures Spot(TWINS.disk, name) && Dirs(Dir(name)) == {"."}
  {
    SplitNoSlash(name, "");
    assert "."[0] == '.';
    DirOfChild(".", name);
    assert Dirs(".") == {"."};
  }

  lemma TwinsAre()
    ensures Inv(TWINS) && TWINS.disk["x"] == FileNode([1]) && TWINS.disk["y"] == FileNode([2]) && TWINS.disk["."] == DirNode
    ensures "x" != "y" && "y" != "z" && "x" != "z" && "z" != "." && "z" !in TWINS.rows && "z" !in TWINS.disk
    ensures "x"[0] == 'x' && "z"[0] == 'z'
  {
    assert "x"[0] == 'x' && "y"[0] == 'y' && "z"[0] == 'z' && "."[0] == '.';
  }

  lemma TwinsPlan()
    ensures PlanOf(X_COMMITTED, TWINS.rows, [TWINS.rows["x"]])
  {
    TwinsAre();
    assert Stale(X_COMMITTED, TWINS.rows, TWINS.rows["x"]) && !Stale(X_COMMITTED, TWINS.rows, TWINS.rows["y"]);
  }

  /** Created files x and y got one time from "touch -r".  A commit adds x; while the reconcile is under
      way "mv x z; mv y x" runs.  The delete finds path, kind, object and stamp it planned for, and y's
      bytes go. */
  lemma TouchedTwinIsLost()
    ensures Inv(TWINS) && PlanOf(X_COMMITTED, TWINS.rows, [TWINS.rows["x"]]) && SafeRun(NOTHING, {0}, TWINS, SWAP)
    ensures var s2 := Run(NOTHING, TWINS, SWAP);
            && "x" in s2.rows && Payload(s2, "x") == FileObj([2]) && Payload(TWINS, "x") == FileObj([1])
            && "x" !in DeleteAll(s2.rows, [TWINS.rows["x"]])
  {
    TwinsAre();
    TwinsPlan();
    TwinsSpot("x");
    TwinsSpot("z");
    TwoMoves(NOTHING, TWINS, "x", "y", "z");
    var s2 := Run(NOTHING, TWINS, SWAP);
    DeleteAllIs(s2.rows, [TWINS.rows["x"]]);
    assert Matches(s2.rows, [TWINS.rows["x"]][0]);
  }
}
