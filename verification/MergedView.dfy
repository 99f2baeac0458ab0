/** What a reader of the mount sees: overlay rows over one base snapshot.  Each operation of the
    overlay is related to the same operation on a plain map from paths to objects. */
module MergedView {
  import opened Wrappers
  import opened Paths
  import opened OverlayState

  /** One snapshot generation, with the git objects its nodes name. */
  datatype Base = Base(nodes: map<string, BaseNode>, objects: map<string, Bytes>)

  datatype Obj = Absent | DirObj | FileObj(bytes: Bytes) | LinkObj(bytes: Bytes)
  type Tree = map<string, Obj>

  /** git names an object for every blob and symlink of a tree. */
  predicate BaseOk(base: Base) {
    forall p :: p in base.nodes && base.nodes[p].typ != TDir ==> base.nodes[p].oid != "" && base.nodes[p].oid in base.objects
  }

  ghost predicate AncestorClosed(base: Base) {
    forall p, d :: p in base.nodes && d != "" && Below(p, d) ==> d in base.nodes
  }

  function RowObj(disk: Disk, e: Entry): Obj {
    if IsDeleted(e) then Absent
    else if e.kind == Mkdir then DirObj
    else if e.backing !in disk || disk[e.backing].DirNode? then Absent
    else if e.kind == Symlink then LinkObj(disk[e.backing].bytes)
    else FileObj(disk[e.backing].bytes)
  }

  function BaseObj(base: Base, p: string): Obj {
    if p !in base.nodes then Absent
    else
      var n := base.nodes[p];
      if n.typ == TDir then DirObj
      else if n.oid !in base.objects then Absent
      else if n.typ == TSymlink then LinkObj(base.objects[n.oid])
      else FileObj(base.objects[n.oid])
  }

  /** Resolver.ResolvePath followed by reading the object it names. */
  function View(base: Base, s: State, p: string): Obj {
    if p in s.rows then RowObj(s.disk, s.rows[p]) else BaseObj(base, p)
  }

  function Fs(base: Base, s: State): Tree {
    map p | p in s.rows.Keys + base.nodes.Keys && View(base, s, p) != Absent :: View(base, s, p)
  }

  lemma FsAt(base: Base, s: State, p: string)
    ensures p in Fs(base, s) <==> View(base, s, p) != Absent
    ensures p in Fs(base, s) ==> Fs(base, s)[p] == View(base, s, p)
  {
  }

  // ---- frames of the system calls ----

  /** Everything of disk at paths other than those in `touched` is in disk2 as it was. */
  ghost predicate Keeps(disk: Disk, disk2: Disk, touched: set<string>) {
    forall q :: q in disk && q !in touched ==> q in disk2 && disk2[q] == disk[q]
  }

  lemma MkdirAllKeeps(disk: Disk, d: string)
    requires MkdirAll(disk, d).Some?
    ensures Keeps(disk, MkdirAll(disk, d).value, {})
    ensures d in MkdirAll(disk, d).value && MkdirAll(disk, d).value[d].DirNode?
  {
  }

  lemma MoveFileKeeps(disk: Disk, src: string, dst: string)
    requires src in disk && disk[src].FileNode? && src != dst && Move(disk, src, dst).Some?
    ensures Keeps(disk, Move(disk, src, dst).value, {src, dst})
    ensures dst in Move(disk, src, dst).value && Move(disk, src, dst).value[dst] == disk[src]
    ensures src !in Move(disk, src, dst).value
  {
  }

  lemma MoveDirKeeps(disk: Disk, src: string, dst: string)
    requires src in disk && disk[src].DirNode? && src != dst && Move(disk, src, dst).Some?
    ensures forall q :: q in disk && q != src && !Below(q, src) ==>
              q in Move(disk, src, dst).value && Move(disk, src, dst).value[q] == disk[q]
    ensures dst in Move(disk, src, dst).value && Move(disk, src, dst).value[dst].DirNode?
  {
  }

  /** Rows whose backing files are kept stay good. */
  lemma RowsStay(s: State, disk2: Disk, rows2: Rows, touched: set<string>)
    requires Inv(s) && Keeps(s.disk, disk2, touched)
    requires forall q :: q in rows2 && q in s.rows && rows2[q] == s.rows[q] && Live(s.rows, q) ==> q !in touched
    ensures forall q :: q in rows2 && q in s.rows && rows2[q] == s.rows[q] ==>
              RowOk(disk2, q, rows2[q]) && RowObj(disk2, rows2[q]) == RowObj(s.disk, s.rows[q])
  {
    forall q | q in rows2 && q in s.rows && rows2[q] == s.rows[q]
      ensures RowOk(disk2, q, rows2[q]) && RowObj(disk2, rows2[q]) == RowObj(s.disk, s.rows[q])
    {
      assert RowOk(s.disk, q, s.rows[q]);
    }
  }

  // ---- the operations on the merged view ----

  lemma TmpIsOther(p: string)
    ensures p + ".tmp" != p
  {
    assert |p + ".tmp"| == |p| + 4;
  }

  /** The disk a successful copy-on-write leaves. */
  lemma CopyOnWriteDisk(s: State, p: string, node: BaseNode, cached: Option<Bytes>, io: Faults)
    requires Inv(s) && p != "" && !Live(s.rows, p)
    requires EnsureCopyOnWrite(s, p, node, cached, io).1.Ok?
    ensures var s' := EnsureCopyOnWrite(s, p, node, cached, io).0;
            var bytes := if node.oid != "" && cached.Some? then cached.value else [];
            && Keeps(s.disk, s'.disk, {p, p + ".tmp"})
            && p in s'.disk && s'.disk[p] == FileNode(bytes)
            && p + ".tmp" !in s'.disk
            && s'.rows == s.rows[p := Entry(p, Modify, p, node.mode, |bytes|, s.clock, s.clock, node.oid, "")]
    ensures p + ".tmp" in s.rows ==> s.rows[p + ".tmp"].kind != Mkdir
  {
    TmpIsOther(p);
    var tmp := p + ".tmp";
    MkdirAllKeeps(s.disk, Dir(p));
    var d1 := MkdirAll(s.disk, Dir(p)).value;
    if tmp in s.rows { assert RowOk(s.disk, tmp, s.rows[tmp]); }
    var bytes := if node.oid != "" && cached.Some? then cached.value else [];
    MoveFileKeeps(d1[tmp := FileNode([])][tmp := FileNode(bytes)], tmp, p);
  }

  /** Promotion makes p a copy of its base object and leaves every other path as it was, exactly
      when no live row stands at the scratch name. */
  lemma CopyOnWriteExact(base: Base, s: State, p: string, cached: Option<Bytes>, io: Faults)
    requires Inv(s) && BaseOk(base) && p != "" && p !in s.rows && p in base.nodes
    requires EnsureCopyOnWrite(s, p, base.nodes[p], cached, io).1.Ok?
    ensures var s' := EnsureCopyOnWrite(s, p, base.nodes[p], cached, io).0;
            var bytes := if base.nodes[p].oid != "" && cached.Some? then cached.value else [];
            && View(base, s', p) == FileObj(bytes)
            && (forall q :: q != p && q != p + ".tmp" ==> View(base, s', q) == View(base, s, q))
            && (View(base, s', p + ".tmp") == View(base, s, p + ".tmp") <==> TmpFree(s, p))
            && (Inv(s') <==> TmpFree(s, p))
  {
    CopyOnWriteDisk(s, p, base.nodes[p], cached, io);
    CopiedView(base, s, EnsureCopyOnWrite(s, p, base.nodes[p], cached, io).0, p);
  }

  lemma CopiedView(base: Base, s: State, s': State, p: string)
    requires Inv(s) && p != "" && p !in s.rows && Keeps(s.disk, s'.disk, {p, p + ".tmp"}) && p + ".tmp" !in s'.disk
    requires p in s'.disk && s'.disk[p].FileNode? && p in s'.rows && s'.rows == s.rows[p := s'.rows[p]]
    requires s'.rows[p].path == p && s'.rows[p].backing == p && s'.rows[p].kind == Modify && s'.rows[p].size == |s'.disk[p].bytes|
    requires p + ".tmp" in s.rows ==> s.rows[p + ".tmp"].kind != Mkdir
    ensures View(base, s', p) == FileObj(s'.disk[p].bytes)
    ensures forall q :: q != p && q != p + ".tmp" ==> View(base, s', q) == View(base, s, q)
    ensures View(base, s', p + ".tmp") == View(base, s, p + ".tmp") <==> TmpFree(s, p)
    ensures Inv(s') <==> TmpFree(s, p)
  {
    TmpIsOther(p);
    var tmp := p + ".tmp";
    forall q | q in s.rows && q != p && q != tmp
      ensures RowOk(s'.disk, q, s.rows[q]) && RowObj(s'.disk, s.rows[q]) == RowObj(s.disk, s.rows[q])
    {
      assert RowOk(s.disk, q, s.rows[q]);
    }
    if tmp in s.rows {
      assert RowOk(s.disk, tmp, s.rows[tmp]);
      assert s'.rows[tmp] == s.rows[tmp];
    }
  }

  lemma CreateFileOnTree(base: Base, s: State, p: string, mode: nat, io: Faults)
    requires Inv(s) && p != "" && CreateFile(s, p, mode, io).1.Ok?
    ensures Inv(CreateFile(s, p, mode, io).0)
    ensures forall q :: q != p ==> View(base, CreateFile(s, p, mode, io).0, q) == View(base, s, q)
    ensures Fs(base, CreateFile(s, p, mode, io).0) == Fs(base, s)[p := FileObj([])]
  {
    var s' := CreateFile(s, p, mode, io).0;
    MkdirAllKeeps(s.disk, Dir(p));
    assert Keeps(s.disk, s'.disk, {p});
    RowsStay(s, s'.disk, s.rows - {p}, {p});
    SameElsewhere(base, s, s', p);
    FsUpdate(base, s, s', p, FileObj([]));
  }

  lemma WriteFileOnTree(base: Base, s: State, p: string, off: int, data: Bytes, io: Faults)
    requires Inv(s) && WriteFile(s, p, off, data, io).1.Ok?
    ensures Inv(WriteFile(s, p, off, data, io).0)
    ensures forall q :: q != p ==> View(base, WriteFile(s, p, off, data, io).0, q) == View(base, s, q)
    ensures off >= 0 && (View(base, s, p).FileObj? || View(base, s, p).LinkObj?)
    ensures Fs(base, WriteFile(s, p, off, data, io).0)
         == Fs(base, s)[p := FileObj(Splice(View(base, s, p).bytes, off, data))]
  {
    var s' := WriteFile(s, p, off, data, io).0;
    assert RowOk(s.disk, p, s.rows[p]);
    assert Keeps(s.disk, s'.disk, {p});
    RowsStay(s, s'.disk, s.rows - {p}, {p});
    SameElsewhere(base, s, s', p);
    FsUpdate(base, s, s', p, FileObj(Splice(View(base, s, p).bytes, off, data)));
  }

  lemma TruncateOnTree(base: Base, s: State, p: string, size: int, io: Faults)
    requires Inv(s) && Truncate(s, p, size, io).1.Ok?
    ensures Inv(Truncate(s, p, size, io).0)
    ensures forall q :: q != p ==> View(base, Truncate(s, p, size, io).0, q) == View(base, s, q)
    ensures size >= 0 && (View(base, s, p).FileObj? || View(base, s, p).LinkObj?)
    ensures Fs(base, Truncate(s, p, size, io).0)
         == Fs(base, s)[p := FileObj(Resize(View(base, s, p).bytes, size))]
  {
    var s' := Truncate(s, p, size, io).0;
    assert RowOk(s.disk, p, s.rows[p]);
    assert Keeps(s.disk, s'.disk, {p});
    RowsStay(s, s'.disk, s.rows - {p}, {p});
    SameElsewhere(base, s, s', p);
    FsUpdate(base, s, s', p, FileObj(Resize(View(base, s, p).bytes, size)));
  }

  lemma RemoveOnTree(base: Base, s: State, p: string, io: Faults)
    requires Inv(s) && p != "" && Remove(s, p, io).1.Ok?
    ensures Inv(Remove(s, p, io).0)
    ensures forall q :: q != p ==> View(base, Remove(s, p, io).0, q) == View(base, s, q)
    ensures Fs(base, Remove(s, p, io).0) == Fs(base, s) - {p}
  {
    var s' := Remove(s, p, io).0;
    if p in s.rows { assert RowOk(s.disk, p, s.rows[p]); }
    assert Keeps(s.disk, s'.disk, {p});
    RowsStay(s, s'.disk, s.rows - {p}, {p});
    SameElsewhere(base, s, s', p);
    FsUpdate(base, s, s', p, Absent);
  }

  lemma MkdirOnTree(base: Base, s: State, p: string, mode: nat, io: Faults)
    requires Inv(s) && p != "" && MkdirRow(s, p, mode, io).1.Ok?
    ensures Inv(MkdirRow(s, p, mode, io).0)
    ensures forall q :: q != p ==> View(base, MkdirRow(s, p, mode, io).0, q) == View(base, s, q)
    ensures Fs(base, MkdirRow(s, p, mode, io).0) == Fs(base, s)[p := DirObj]
  {
    MkdirAllKeeps(s.disk, p);
    RowsStay(s, MkdirAll(s.disk, p).value, s.rows - {p}, {});
    DirMade(base, s, MkdirRow(s, p, mode, io).0, p);
  }

  lemma DirMade(base: Base, s: State, s': State, p: string)
    requires p != "" && p in s'.rows && s'.rows == s.rows[p := s'.rows[p]] && p in s'.disk && s'.disk[p].DirNode?
    requires s'.rows[p].path == p && s'.rows[p].backing == p && s'.rows[p].kind == Mkdir
    requires forall q :: q in s.rows && q != p ==> RowOk(s'.disk, q, s.rows[q]) && RowObj(s'.disk, s.rows[q]) == RowObj(s.disk, s.rows[q])
    ensures Inv(s') && Fs(base, s') == Fs(base, s)[p := DirObj]
    ensures forall q :: q != p ==> View(base, s', q) == View(base, s, q)
  {
    SameElsewhere(base, s, s', p);
    FsUpdate(base, s, s', p, DirObj);
  }

  /** When only row p is replaced and the others keep their files, the view changes at p alone. */
  lemma SameElsewhere(base: Base, s: State, s': State, p: string)
    requires p in s'.rows && s'.rows == s.rows[p := s'.rows[p]]
    requires forall q :: q in s.rows && q != p ==>
               RowOk(s'.disk, q, s.rows[q]) && RowObj(s'.disk, s.rows[q]) == RowObj(s.disk, s.rows[q])
    ensures forall q :: q != p ==> View(base, s', q) == View(base, s, q)
    ensures RowOk(s'.disk, p, s'.rows[p]) ==> Inv(s')
  {
  }

  lemma FsUpdate(base: Base, s: State, s': State, p: string, o: Obj)
    requires forall q :: q != p ==> View(base, s', q) == View(base, s, q)
    requires View(base, s', p) == o
    ensures Fs(base, s') == if o == Absent then Fs(base, s) - {p} else Fs(base, s)[p := o]
  {
    var t := if o == Absent then Fs(base, s) - {p} else Fs(base, s)[p := o];
    forall q ensures q in Fs(base, s') <==> q in t
      ensures q in t ==> Fs(base, s')[q] == t[q]
    {
      FsAt(base, s, q);
      FsAt(base, s', q);
    }
  }
}
