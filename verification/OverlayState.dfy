/** The overlay: a table of rows keyed by path and an upper directory of backing files, and what
    each store operation does to the two.  System calls that may fail are named by `Sys`; a
    `Faults` map says which of them fail in one call and with what error. */
module OverlayState {
  import opened Wrappers
  import opened Paths

  newtype Byte = x: int | 0 <= x < 256
  type Bytes = seq<Byte>

  datatype Kind = Create | Modify | Delete | Rename | Mkdir | Symlink

  /** A row of overlay_entries.  Backing paths are relative to the upper directory; "" is none. */
  datatype Entry = Entry(
    path: string, kind: Kind, backing: string, mode: nat, size: nat,
    mtime: int, ctime: int, oid: string, target: string)

  datatype BaseNode = BaseNode(typ: NodeType, mode: nat, oid: string)
  datatype NodeType = TFile | TDir | TSymlink

  datatype FsNode = DirNode | FileNode(bytes: Bytes)
  type Disk = map<string, FsNode>
  type Rows = map<string, Entry>

  datatype State = State(rows: Rows, disk: Disk, clock: nat)

  datatype Err = ErrNotExist | ErrInvalid | ErrExist | ErrIO
  datatype Result = Ok | Fail(err: Err)
  datatype Sys = SysMkdirAll | SysWriteFile | SysCopy | SysOpen | SysWriteAt | SysTruncate
               | SysRename | SysRenameBack | SysChmod | SysRemove | SysDB
  type Faults = map<Sys, Err>

  predicate IsDeleted(e: Entry) { e.kind == Delete }

  predicate Live(rows: Rows, p: string) { p in rows && !IsDeleted(rows[p]) }

  predicate HoldsBytes(k: Kind) { k == Create || k == Modify || k == Rename || k == Symlink }

  predicate Below(p: string, dir: string) { HasPrefix(p, dir + "/") }

  // ---- the upper directory ----

  /** The directories MkdirAll(d) has to find or make: d and every directory above it. */
  function Dirs(d: string): set<string> {
    {d} + (set i | 0 <= i < |d| && d[i] == '/' :: d[..i])
  }

  function MkdirAll(disk: Disk, d: string): Option<Disk> {
    if exists a :: a in Dirs(d) && a in disk && disk[a].FileNode? then None
    else Some(disk + map a | a in Dirs(d) :: DirNode)
  }

  function WriteEmpty(disk: Disk, p: string): Option<Disk> {
    if p in disk && disk[p].DirNode? then None else Some(disk[p := FileNode([])])
  }

  /** os.Remove with its error ignored: a directory goes only when nothing lies below it. */
  function RemoveNode(disk: Disk, p: string): Disk {
    if p in disk && disk[p].DirNode? && exists q :: q in disk && Below(q, p) then disk
    else disk - {p}
  }

  /** os.Rename: it replaces a file by a file, and never an existing directory. */
  function Move(disk: Disk, src: string, dst: string): Option<Disk> {
    if src !in disk || (dst in disk && disk[dst].DirNode?) then None
    else if disk[src].FileNode? then Some((disk - {src})[dst := disk[src]])
    else if Below(dst, src) || dst in disk || exists q :: q in disk && Below(q, dst) then None
    else
      Some(map q | q in disk.Keys + MovedKeys(disk, src, dst)
               && (q == dst || Below(q, dst) || (q != src && !Below(q, src)))
             :: if q == dst then DirNode
                else if Below(q, dst) && src + q[|dst|..] in disk then disk[src + q[|dst|..]]
                else if q in disk then disk[q] else DirNode)
  }

  function MovedKeys(disk: Disk, src: string, dst: string): set<string> {
    {dst} + set q | q in disk && Below(q, src) :: dst + q[|src|..]
  }

  function Zeros(n: nat): (z: Bytes)
    ensures |z| == n && forall i :: 0 <= i < n ==> z[i] == 0
  {
    seq(n, _ => 0 as Byte)
  }

  /** The bytes of a file after pwrite(data, off): a gap past the end reads as zeros. */
  function Splice(b: Bytes, off: nat, data: Bytes): (r: Bytes)
    ensures data == [] ==> r == b
    ensures data != [] ==> |r| == (if off + |data| > |b| then off + |data| else |b|)
    ensures data != [] ==> r[off..off + |data|] == data
    ensures forall i :: 0 <= i < |r| && !(off <= i < off + |data|) ==> r[i] == if i < |b| then b[i] else 0
  {
    if data == [] then b
    else
      var padded := if |b| < off then b + Zeros(off - |b|) else b;
      padded[..off] + data + (if off + |data| < |padded| then padded[off + |data|..] else [])
  }

  function Resize(b: Bytes, size: nat): (r: Bytes)
    ensures |r| == size
    ensures forall i :: 0 <= i < size ==> r[i] == if i < |b| then b[i] else 0
  {
    if size <= |b| then b[..size] else b + Zeros(size - |b|)
  }

  // ---- the operations ----

  function ErrOf(io: Faults, call: Sys): Err {
    if call in io then io[call] else ErrIO
  }

  function EnsureCopyOnWrite(s: State, p: string, base: BaseNode, cached: Option<Bytes>, io: Faults): (State, Result) {
    var tmp := p + ".tmp";
    if Live(s.rows, p) then (s, Ok)
    else if SysMkdirAll in io || MkdirAll(s.disk, Dir(p)).None? then (s, Fail(ErrOf(io, SysMkdirAll)))
    else
      var s1 := s.(disk := MkdirAll(s.disk, Dir(p)).value);
      if SysWriteFile in io || WriteEmpty(s1.disk, tmp).None? then (s1, Fail(ErrOf(io, SysWriteFile)))
      else
        var s2 := s1.(disk := WriteEmpty(s1.disk, tmp).value);
        CommitCopy(s2, p, tmp, base, cached, io)
  }

  /** Copy-on-write from the empty scratch file on. */
  function CommitCopy(s: State, p: string, tmp: string, base: BaseNode, cached: Option<Bytes>, io: Faults): (State, Result) {
    if base.oid != "" && cached.Some? && SysCopy in io then (s.(disk := s.disk - {tmp}), Fail(ErrIO))
    else
      var bytes := if base.oid != "" && cached.Some? then cached.value else [];
      var s1 := s.(disk := s.disk[tmp := FileNode(bytes)]);
      var moved := Move(s1.disk, tmp, p);
      if SysRename in io || moved.None? then (s1, Fail(ErrOf(io, SysRename)))
      else
        var s2 := s1.(disk := moved.value, clock := s.clock + 1);
        if SysDB in io then (s2, Fail(ErrIO))
        else
          (s2.(rows := s.rows[p := Entry(p, Modify, p, base.mode, |bytes|, s.clock, s.clock, base.oid, "")]), Ok)
  }

  function CreateFile(s: State, p: string, mode: nat, io: Faults): (State, Result) {
    if SysMkdirAll in io || MkdirAll(s.disk, Dir(p)).None? then (s, Fail(ErrOf(io, SysMkdirAll)))
    else
      var s1 := s.(disk := MkdirAll(s.disk, Dir(p)).value);
      if SysWriteFile in io || WriteEmpty(s1.disk, p).None? then (s1, Fail(ErrOf(io, SysWriteFile)))
      else
        var s2 := s1.(disk := WriteEmpty(s1.disk, p).value, clock := s1.clock + 1);
        if SysDB in io then (s2, Fail(ErrIO))
        else (s2.(rows := s2.rows[p := Entry(p, Create, p, mode, 0, s.clock, s.clock, "", "")]), Ok)
  }

  /** The kind a row has after its bytes change: a created file stays one, all else is "modify". */
  function Dirtied(k: Kind): Kind { if k == Create then Create else Modify }

  function WriteFile(s: State, p: string, off: int, data: Bytes, io: Faults): (State, Result) {
    if !Live(s.rows, p) then (s, Fail(ErrNotExist))
    else
      var e := s.rows[p];
      if SysOpen in io || (e.backing in s.disk && s.disk[e.backing].DirNode?) then (s, Fail(ErrOf(io, SysOpen)))
      else
        var b := if e.backing in s.disk then s.disk[e.backing].bytes else [];
        var s1 := s.(disk := s.disk[e.backing := FileNode(b)]);
        if off < 0 || SysWriteAt in io then (s1, Fail(ErrOf(io, SysWriteAt)))
        else
          var b' := Splice(b, off, data);
          var s2 := s1.(disk := s1.disk[e.backing := FileNode(b')], clock := s1.clock + 1);
          if SysDB in io then (s2, Fail(ErrIO))
          else
            (s2.(rows := s2.rows[p := e.(size := |b'|, mtime := s.clock, ctime := s.clock, kind := Dirtied(e.kind))]), Ok)
  }

  function Truncate(s: State, p: string, size: int, io: Faults): (State, Result) {
    if !Live(s.rows, p) then (s, Fail(ErrNotExist))
    else
      var e := s.rows[p];
      if SysTruncate in io || size < 0 || e.backing !in s.disk || s.disk[e.backing].DirNode? then
        (s, Fail(ErrOf(io, SysTruncate)))
      else
        var b := Resize(s.disk[e.backing].bytes, size);
        var s1 := s.(disk := s.disk[e.backing := FileNode(b)], clock := s.clock + 1);
        if SysDB in io then (s1, Fail(ErrIO))
        else
          (s1.(rows := s1.rows[p := e.(size := size, mtime := s.clock, ctime := s.clock, kind := Dirtied(e.kind))]), Ok)
  }

  function Remove(s: State, p: string, io: Faults): (State, Result) {
    var disk := if p in s.rows && s.rows[p].backing != "" && SysRemove !in io
                then RemoveNode(s.disk, s.rows[p].backing) else s.disk;
    var s1 := s.(disk := disk, clock := s.clock + 1);
    if SysDB in io then (s1, Fail(ErrIO))
    else (s1.(rows := s1.rows[p := Entry(p, Delete, "", 0, 0, s.clock, s.clock, "", "")]), Ok)
  }

  /** mode & 0o170000 == 0o40000 && mode & 0o777 == 0 */
  predicate GitDirMode(mode: nat) { (mode / 4096) % 16 == 4 && mode % 512 == 0 }

  function NormalizeGitDirMode(mode: nat): nat { if GitDirMode(mode) then 493 else mode }

  function MkdirRow(s: State, p: string, mode: nat, io: Faults): (State, Result) {
    MkdirAs(s, p, NormalizeGitDirMode(mode), GitDirMode(mode), io)
  }

  /** Mkdir with the mode it will have, and whether that is not the mode asked for. */
  function MkdirAs(s: State, p: string, mode: nat, normalized: bool, io: Faults): (State, Result) {
    if SysMkdirAll in io || MkdirAll(s.disk, p).None? then (s, Fail(ErrOf(io, SysMkdirAll)))
    else
      var s1 := s.(disk := MkdirAll(s.disk, p).value);
      if normalized && SysChmod in io then (s1, Fail(io[SysChmod]))
      else
        var s2 := s1.(clock := s1.clock + 1);
        if SysDB in io then (s2, Fail(ErrIO))
        else (s2.(rows := s2.rows[p := Entry(p, Mkdir, p, mode, 0, s.clock, s.clock, "", "")]), Ok)
  }

  /** The rows a directory rename drops: whiteouts below the directory. */
  function DeletedDescendants(rows: Rows, dir: string): (d: set<string>) {
    set p | p in rows && IsDeleted(rows[p]) && Below(p, dir)
  }

  predicate HasOverlayDescendants(rows: Rows, dir: string) {
    exists p :: p in rows && !IsDeleted(rows[p]) && Below(p, dir)
  }

  /** Create, symlink and mkdir rows move as they are; all others become "rename" rows. */
  predicate MovesBare(k: Kind) { k == Create || k == Symlink || k == Mkdir }

  /** The base path a rename row stands for: the first link of its chain. */
  function ChainSource(e: Entry): string {
    if MovesBare(e.kind) then "" else if e.kind == Rename && e.target != "" then e.target else e.path
  }

  function RenamedEntry(e: Entry, p: string, now: int): Entry {
    e.(path := p, backing := p, ctime := now, target := ChainSource(e),
       kind := if MovesBare(e.kind) then e.kind else Rename,
       mode := if e.kind == Mkdir then NormalizeGitDirMode(e.mode) else e.mode)
  }

  function Whiteout(p: string, now: int, target: string): Entry {
    Entry(p, Delete, "", 0, 0, now, now, "", target)
  }

  /** The table after the transaction of Rename commits. */
  function RenamedRows(rows: Rows, p: string, q: string, now: int): Rows
    requires p in rows
  {
    var e := rows[p];
    var moved := (rows - {p})[q := RenamedEntry(e, q, now)];
    var swept := if e.kind == Mkdir then moved - DeletedDescendants(moved, p) else moved;
    if MovesBare(e.kind) then swept else swept[p := Whiteout(p, now, ChainSource(e))]
  }

  lemma RenamedRowsAre(rows: Rows, p: string, q: string, now: int)
    requires p in rows && !IsDeleted(rows[p]) && p != q && q !in rows
    ensures var t := RenamedRows(rows, p, q, now);
            && q in t && t[q] == RenamedEntry(rows[p], q, now)
            && (p in t <==> !MovesBare(rows[p].kind))
            && (p in t ==> t[p] == Whiteout(p, now, ChainSource(rows[p])))
            && forall r :: r != p && r != q ==>
                 && (r in t <==> r in rows && !(rows[p].kind == Mkdir && IsDeleted(rows[r]) && Below(r, p)))
                 && (r in t ==> t[r] == rows[r])
  {
  }

  function RenameRow(s: State, p: string, q: string, io: Faults): (State, Result) {
    if !Live(s.rows, p) then (s, Fail(ErrNotExist))
    else if p == q then (s, Ok)
    else if SysMkdirAll in io || MkdirAll(s.disk, Dir(q)).None? then (s, Fail(ErrOf(io, SysMkdirAll)))
    else
      var s1 := s.(disk := MkdirAll(s.disk, Dir(q)).value);
      if s.rows[p].kind == Mkdir && HasOverlayDescendants(s.rows, p) then (s1, Fail(ErrInvalid))
      else CommitRename(s1, p, q, io)
  }

  /** Rename from its transaction on: the rows, then the backing file or directory. */
  function CommitRename(s: State, p: string, q: string, io: Faults): (State, Result)
    requires p in s.rows
  {
    var e := s.rows[p];
    var s1 := s.(clock := s.clock + 1);
    if SysDB in io || q in s.rows - {p} then (s1, Fail(ErrIO))
    else
      var s2 := s1.(rows := RenamedRows(s.rows, p, q, s.clock));
      if e.backing == "" then (s2, Ok)
      else
        var moved := Move(s.disk, e.backing, q);
        if SysRename in io || moved.None? then (s1, Fail(ErrOf(io, SysRename)))
        else if e.kind == Mkdir && GitDirMode(e.mode) && SysChmod in io then
          var back := Move(moved.value, q, e.backing);
          (s1.(disk := if SysRenameBack in io || back.None? then moved.value else back.value), Fail(io[SysChmod]))
        else (s2.(disk := moved.value), Ok)
  }

  function RenameAndMark(s: State, p: string, q: string, oid: string, io: Faults): (State, Result) {
    if !Live(s.rows, p) then (s, Fail(ErrNotExist))
    else if p == q then
      if SysDB in io then (s, Fail(ErrIO))
      else (s.(rows := s.rows[p := s.rows[p].(kind := Modify, oid := oid, target := "")]), Ok)
    else if SysMkdirAll in io || MkdirAll(s.disk, Dir(q)).None? then (s, Fail(ErrOf(io, SysMkdirAll)))
    else CommitMarked(s.(disk := MkdirAll(s.disk, Dir(q)).value), p, q, oid, io)
  }

  function CommitMarked(s: State, p: string, q: string, oid: string, io: Faults): (State, Result)
    requires p in s.rows
  {
    var e := s.rows[p];
    var s1 := s.(clock := s.clock + 1);
    if SysDB in io || q in s.rows - {p} then (s1, Fail(ErrIO))
    else
      var s2 := s1.(rows := (s.rows - {p})[q := e.(path := q, kind := Modify, backing := q, ctime := s.clock, oid := oid, target := "")]);
      if e.backing == "" then (s2, Ok)
      else
        var moved := Move(s.disk, e.backing, q);
        if SysRename in io || moved.None? then (s1, Fail(ErrOf(io, SysRename)))
        else (s2.(disk := moved.value), Ok)
  }

  function SetMtime(s: State, p: string, t: int, io: Faults): (State, Result) {
    if p in s.rows && s.rows[p].kind == Mkdir && GitDirMode(s.rows[p].mode) && SysChmod in io then (s, Fail(io[SysChmod]))
    else if SysDB in io then (s.(clock := s.clock + 1), Fail(ErrIO))
    else
      var s1 := s.(clock := s.clock + 1);
      if p !in s.rows then (s1, Ok)
      else
        var e := s.rows[p];
        var mode := if e.kind == Mkdir then NormalizeGitDirMode(e.mode) else e.mode;
        (s1.(rows := s1.rows[p := e.(mode := mode, mtime := t, ctime := s.clock)]), Ok)
  }

  // ---- what every operation keeps ----

  /** A row agrees with its backing file: bytes of the recorded size, or a directory. */
  predicate RowOk(disk: Disk, p: string, e: Entry) {
    && e.path == p && p != ""
    && (IsDeleted(e) ==> e.backing == "")
    && (!IsDeleted(e) ==> e.backing == p && p in disk)
    && (HoldsBytes(e.kind) ==> disk[p].FileNode? && |disk[p].bytes| == e.size)
    && (e.kind == Mkdir ==> disk[p].DirNode?)
  }

  ghost predicate Inv(s: State) {
    forall p :: p in s.rows ==> RowOk(s.disk, p, s.rows[p])
  }

  /** Copy-on-write of p uses p + ".tmp" as scratch space in the same directory. */
  predicate TmpFree(s: State, p: string) { !Live(s.rows, p + ".tmp") }
}
