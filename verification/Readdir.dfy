/** Resolver: path resolution and directory listing over one base snapshot and the overlay. */
module Readdir {
  import opened Wrappers
  import opened Paths
  import opened SortedPaths
  import opened OverlayState
  import opened MergedView
  import opened OverlayStore

  datatype Dirent = Dirent(name: string, typ: NodeType, oid: string)

  function NodeTypeOf(e: Entry): NodeType {
    match e.kind case Mkdir => TDir case Symlink => TSymlink case _ => TFile
  }

  // ---- names of children ----

  /** childName: the name under `parent` that leads to `p`. */
  function ChildName(parent: string, p: string): Option<string> {
    if parent != "." && !Below(p, parent) then None
    else
      var rel := if parent == "." then p else p[|parent| + 1..];
      if rel == "" then None else Some(Split(rel)[0])
  }

  predicate AtOrBelow(p: string, dir: string) { p == dir || Below(p, dir) }

  lemma FirstComponent(rel: string, n: string)
    requires '/' !in n
    ensures Split(rel)[0] == n <==> rel == n || HasPrefix(rel, n + "/")
  {
    var cs := Split(rel);
    JoinSplit(rel);
    if |cs| > 1 {
      var m := cs[0];
      assert rel == m + "/" + Join(cs[1..]);
      assert rel[..|m| + 1] == m + "/";
    }
    if HasPrefix(rel, n + "/") {
      assert rel == n + "/" + rel[|n| + 1..];
      SplitNoSlash(n, rel[|n| + 1..]);
    }
    SplitNoSlash(n, "");
  }

  lemma PrefixSplits(p: string, a: string, b: string)
    ensures HasPrefix(p, a + b) <==> HasPrefix(p, a) && HasPrefix(p[|a|..], b)
    ensures p == a + b <==> HasPrefix(p, a) && p[|a|..] == b
  {
    if |p| >= |a| + |b| {
      var q := p[..|a| + |b|];
      assert q[..|a|] == p[..|a|] && q[|a|..] == p[|a|..][..|b|] && q == q[..|a|] + q[|a|..];
      assert (a + b)[..|a|] == a && (a + b)[|a|..] == b;
    }
    if |p| >= |a| { assert p == p[..|a|] + p[|a|..]; }
    assert (a + b)[..|a|] == a && (a + b)[|a|..] == b;
  }

  lemma ChildNameIff(dir: string, p: string, n: string)
    requires IsKey(dir) && IsName(n) && p != ""
    ensures ChildName(dir, p) == Some(n) <==> AtOrBelow(p, Child(dir, n))
  {
    if dir == "." {
      FirstComponent(p, n);
    } else {
      PrefixSplits(p, dir + "/", n);
      PrefixSplits(p, dir + "/", n + "/");
      assert Child(dir, n) + "/" == dir + "/" + (n + "/") && Child(dir, n) == dir + "/" + n;
      if Below(p, dir) { FirstComponent(p[|dir| + 1..], n); }
    }
  }

  lemma ChildNameIsName(dir: string, p: string)
    requires IsKey(dir) && IsKey(p) && p != dir && ChildName(dir, p).Some?
    ensures IsName(ChildName(dir, p).value)
  {
    KeyIsClean(p);
    var n := ChildName(dir, p).value;
    SplitNoSlash(".", "");
    if dir == "." {
      assert Split(p)[0] in Split(p);
    } else {
      var rel := p[|dir| + 1..];
      assert p == dir + "/" + rel;
      SplitAppend(dir, rel);
      KeyIsClean(dir);
      assert |Split(p)| >= 2;
      assert Split(rel)[0] in Split(p);
    }
  }

  // ---- LIKE ----

  function FoldCase(c: char): char { if 'A' <= c <= 'Z' then c - 'A' + 'a' else c }

  /** SQLite's LIKE: '%' and '_' are wild wherever they come from, ASCII letters match either case. */
  predicate Like(pattern: string, s: string)
    decreases |pattern| + |s|
  {
    if pattern == "" then s == ""
    else if pattern[0] == '%' then Like(pattern[1..], s) || (s != "" && Like(pattern, s[1..]))
    else s != "" && (pattern[0] == '_' || FoldCase(pattern[0]) == FoldCase(s[0])) && Like(pattern[1..], s[1..])
  }

  lemma {:induction false} PercentMatchesAll(s: string)
    ensures Like("%", s)
    decreases |s|
  {
    assert "%"[1..] == "";
    if s != "" { PercentMatchesAll(s[1..]); }
  }

  /** A pattern made from a directory name may match too much, never too little. */
  lemma {:induction false} LikePrefix(prefix: string, s: string)
    requires HasPrefix(s, prefix)
    ensures Like(prefix + "%", s)
    decreases |prefix|
  {
    if prefix == "" {
      assert prefix + "%" == "%";
      PercentMatchesAll(s);
    } else {
      assert (prefix + "%")[1..] == prefix[1..] + "%";
      assert s[..|prefix|][1..] == s[1..][..|prefix| - 1];
      assert s[0] == s[..|prefix|][0];
      LikePrefix(prefix[1..], s[1..]);
      if prefix[0] == '%' {
        assert Like(prefix[1..] + "%", s[1..]);
        PercentStep(prefix + "%", s);
      }
    }
  }

  lemma PercentStep(pattern: string, s: string)
    requires pattern != "" && pattern[0] == '%' && s != "" && Like(pattern[1..], s[1..])
    ensures Like(pattern, s)
  {
    assert Like(pattern, s[1..]);
  }

  /** ListByPrefix: the rows a listing of `dir` looks at. */
  function Candidates(rows: Rows, dir: string): set<string> {
    set p | p in rows && Like(if dir == "." then "%" else dir + "/%", p)
  }

  lemma CandidatesCover(rows: Rows, dir: string, p: string)
    requires p in rows && (dir == "." || Below(p, dir))
    ensures p in Candidates(rows, dir)
  {
    if dir == "." {
      PercentMatchesAll(p);
    } else {
      LikePrefix(dir + "/", p);
      assert dir + "/" + "%" == dir + "/%";
    }
  }

  // ---- listing ----

  ghost predicate AllKeys(base: Base, rows: Rows) {
    (forall p :: p in rows ==> IsKey(p) && rows[p].path == p) && (forall p :: p in base.nodes ==> IsKey(p))
  }

  /** What the base contributes under a name. */
  function BaseCell(base: Base, dir: string, n: string): Option<Dirent> {
    var c := Child(dir, n);
    if IsName(n) && c in base.nodes then Some(Dirent(n, base.nodes[c].typ, base.nodes[c].oid)) else None
  }

  /** What a row means to a listing: nothing, a name hidden, or a name shown with a type. */
  datatype Mark = Skip | Hide(name: string) | Put(name: string, typ: NodeType)

  function MarkOf(rows: Rows, dir: string, e: Entry): Mark {
    if e.path == dir then Skip
    else match ChildName(dir, e.path)
      case None => Skip
      case Some(n) =>
        var c := Child(dir, n);
        if IsDeleted(e) && e.path == c then Hide(n)
        else if c in rows && IsDeleted(rows[c]) then Skip
        else Put(n, NodeTypeOf(e))
  }

  function Revise(cell: Option<Dirent>, n: string, m: Mark): Option<Dirent> {
    match m
    case Skip => cell
    case Hide(name) => if name == n then None else cell
    case Put(name, typ) => if name == n then Some(Dirent(n, typ, "")) else cell
  }

  /** The cell of a name after some rows, in order. */
  function Cell(start: Option<Dirent>, marks: seq<Mark>, n: string): Option<Dirent>
    decreases |marks|
  {
    if marks == [] then start
    else Revise(Cell(start, marks[..|marks| - 1], n), n, marks[|marks| - 1])
  }

  predicate Puts(m: Mark, n: string) { m.Put? && m.name == n }

  function LastPut(marks: seq<Mark>, n: string): (k: int)
    ensures -1 <= k < |marks|
    ensures k >= 0 ==> Puts(marks[k], n)
    ensures forall j :: k < j < |marks| ==> !Puts(marks[j], n)
    decreases |marks|
  {
    if marks == [] then -1
    else if Puts(marks[|marks| - 1], n) then |marks| - 1
    else LastPut(marks[..|marks| - 1], n)
  }

  /** A hidden name stays hidden; otherwise the last row that shows the name decides its type, and
      with none the base does. */
  lemma {:induction false} CellIsLast(start: Option<Dirent>, marks: seq<Mark>, n: string)
    requires (exists i :: 0 <= i < |marks| && marks[i] == Hide(n)) ==> LastPut(marks, n) < 0
    ensures Cell(start, marks, n) ==
            if exists i :: 0 <= i < |marks| && marks[i] == Hide(n) then None
            else if LastPut(marks, n) < 0 then start
            else Some(Dirent(n, marks[LastPut(marks, n)].typ, ""))
    decreases |marks|
  {
    if marks != [] {
      var init, last := marks[..|marks| - 1], marks[|marks| - 1];
      assert forall i :: 0 <= i < |init| ==> init[i] == marks[i];
      if Puts(last, n) {
        assert Cell(start, marks, n) == Some(Dirent(n, last.typ, ""));
      } else {
        CellIsLast(start, init, n);
        if last == Hide(n) { assert marks[|marks| - 1] == Hide(n); }
      }
    }
  }

  // ---- what a listing shows ----

  predicate Resolves(base: Base, rows: Rows, p: string) {
    if p in rows then !IsDeleted(rows[p]) else p in base.nodes
  }

  predicate RowBelow(rows: Rows, p: string) {
    exists r :: r in rows && Below(r, p)
  }

  /** A name is listed when its path is not whited out and either resolves or has a row below it. */
  predicate Listed(base: Base, rows: Rows, dir: string, n: string) {
    var c := Child(dir, n);
    && IsName(n)
    && !(c in rows && IsDeleted(rows[c]))
    && (Resolves(base, rows, c) || RowBelow(rows, c))
  }

  /** The row that decides the type of a path: the last one at or below it. */
  ghost predicate Decides(rows: Rows, c: string, r: string) {
    r in rows && AtOrBelow(r, c) && forall q :: q in rows && AtOrBelow(q, c) && q != r ==> Less(q, r)
  }

  function MarksOf(rows: Rows, dir: string, paths: seq<string>): (ms: seq<Mark>)
    ensures |ms| == |paths|
    ensures forall i :: 0 <= i < |paths| && paths[i] in rows ==> ms[i] == MarkOf(rows, dir, rows[paths[i]])
  {
    seq(|paths|, i requires 0 <= i < |paths| => if paths[i] in rows then MarkOf(rows, dir, rows[paths[i]]) else Skip)
  }

  /** Rows at or below a child show its name, unless its own row is a whiteout: that hides it. */
  lemma MarkAt(base: Base, rows: Rows, dir: string, n: string, r: string)
    requires AllKeys(base, rows) && IsKey(dir) && IsName(n) && r in rows
    ensures var c, m := Child(dir, n), MarkOf(rows, dir, rows[r]);
            && (m == Hide(n) <==> r == c && IsDeleted(rows[r]))
            && (Puts(m, n) <==> AtOrBelow(r, c) && !(c in rows && IsDeleted(rows[c])))
            && (Puts(m, n) ==> m.typ == NodeTypeOf(rows[r]))
  {
    KeyIsClean(r);
    ChildNameIff(dir, r, n);
    if AtOrBelow(r, Child(dir, n)) { ChildIsBelow(dir, n, r); }
  }

  /** A cell in terms of the set `q` of rows that bear on its name. */
  lemma CellOfRows(start: Option<Dirent>, sorted: seq<string>, marks: seq<Mark>, n: string, c: string, q: set<string>, hidden: bool)
    returns (k: int)
    requires |marks| == |sorted| && StrictlySorted(sorted) && (forall r :: r in q ==> r in sorted)
    requires hidden ==> c in sorted
    requires forall i :: 0 <= i < |sorted| ==> (Puts(marks[i], n) <==> !hidden && sorted[i] in q)
    requires forall i :: 0 <= i < |sorted| ==> (marks[i] == Hide(n) <==> hidden && sorted[i] == c)
    ensures hidden ==> Cell(start, marks, n) == None
    ensures !hidden && q == {} ==> Cell(start, marks, n) == start
    ensures !hidden && q != {} ==>
              && 0 <= k < |sorted| && sorted[k] in q && marks[k].Put?
              && Cell(start, marks, n) == Some(Dirent(n, marks[k].typ, ""))
              && forall r :: r in q && r != sorted[k] ==> Less(r, sorted[k])
  {
    k := LastPut(marks, n);
    if hidden {
      var i :| 0 <= i < |sorted| && sorted[i] == c;
      assert marks[i] == Hide(n);
    }
    CellIsLast(start, marks, n);
    if !hidden && q != {} {
      forall r | r in q ensures r == sorted[k] || Less(r, sorted[k]) {
        var i :| 0 <= i < |sorted| && sorted[i] == r;
        assert Puts(marks[i], n);
      }
    }
  }

  /** The final cells, read off the table. */
  lemma CellShows(base: Base, rows: Rows, dir: string, n: string)
    requires AllKeys(base, rows) && IsKey(dir) && IsName(n)
    ensures var cell := Cell(BaseCell(base, dir, n), MarksOf(rows, dir, Sorted(Candidates(rows, dir))), n);
            && (cell.Some? <==> Listed(base, rows, dir, n))
            && (cell.Some? ==> cell.value.name == n && CellGood(base, rows, dir, cell.value))
  {
    var sorted, c := Sorted(Candidates(rows, dir)), Child(dir, n);
    var marks := MarksOf(rows, dir, sorted);
    var q := set r | r in rows && AtOrBelow(r, c);
    forall i | 0 <= i < |sorted| ensures sorted[i] in rows { assert sorted[i] in sorted; }
    forall r | r in q ensures r in sorted {
      ChildIsBelow(dir, n, r);
      CandidatesCover(rows, dir, r);
    }
    forall i | 0 <= i < |sorted|
      ensures Puts(marks[i], n) <==> !(c in rows && IsDeleted(rows[c])) && sorted[i] in q
      ensures marks[i] == Hide(n) <==> (c in rows && IsDeleted(rows[c])) && sorted[i] == c
      ensures Puts(marks[i], n) ==> marks[i].typ == NodeTypeOf(rows[sorted[i]])
    {
      MarkAt(base, rows, dir, n, sorted[i]);
    }
    assert c in rows ==> c in q;
    var k := CellOfRows(BaseCell(base, dir, n), sorted, marks, n, c, q, c in rows && IsDeleted(rows[c]));
    CellMeets(base, rows, dir, n, q, Cell(BaseCell(base, dir, n), marks, n), if 0 <= k < |sorted| then sorted[k] else "");
  }

  lemma CellMeets(base: Base, rows: Rows, dir: string, n: string, q: set<string>, cell: Option<Dirent>, r: string)
    requires IsName(n) && q == set p | p in rows && AtOrBelow(p, Child(dir, n))
    requires var c := Child(dir, n); var hidden := c in rows && IsDeleted(rows[c]);
             && (hidden ==> cell == None)
             && (!hidden && q == {} ==> cell == BaseCell(base, dir, n))
             && (!hidden && q != {} ==> r in q && cell == Some(Dirent(n, NodeTypeOf(rows[r]), ""))
                                        && forall x :: x in q && x != r ==> Less(x, r))
    ensures cell.Some? <==> Listed(base, rows, dir, n)
    ensures cell.Some? ==> cell.value.name == n && CellGood(base, rows, dir, cell.value)
  {
    var c := Child(dir, n);
    if q != {} && !(c in rows && IsDeleted(rows[c])) {
      assert Decides(rows, c, r);
      if r != c { assert Below(r, c); }
      assert forall x :: x in rows && Below(x, c) ==> x in q;
    } else if q == {} {
      assert forall x :: x in rows && Below(x, c) ==> x in q;
      assert c in rows ==> c in q;
    }
  }

  lemma ChildIsBelow(dir: string, n: string, p: string)
    requires IsName(n) && AtOrBelow(p, Child(dir, n))
    ensures p != dir && p != "" && (dir == "." || Below(p, dir))
  {
    if dir != "." {
      PrefixSplits(p, dir + "/", n);
      PrefixSplits(p, dir + "/", n + "/");
      assert Child(dir, n) + "/" == dir + "/" + (n + "/") && Child(dir, n) == dir + "/" + n;
      assert |p| > |dir|;
    }
  }

  class Resolver {
    var base: Base
    const overlay: Store

    constructor (overlay: Store, base: Base)
      ensures this.overlay == overlay && this.base == base
    {
      this.overlay, this.base := overlay, base;
    }

    predicate ResolvePath(path: string)
      reads this, overlay
    {
      Resolves(base, overlay.rows, CleanPath(path))
    }

    /** ListChildren: base nodes whose parent is dir, by name. */
    method BaseChildren(dir: string) returns (cells: map<string, Dirent>)
      requires AllKeys(base, overlay.rows) && IsKey(dir)
      ensures Shows(cells, base, dir)
    {
      var children := Sorted(set p | p in base.nodes && p != "." && Dir(p) == dir);
      forall j | 0 <= j < |children| ensures NodeIn(base, dir, children[j]) { assert children[j] in children; }
      ghost var names := ChildNames(base, dir, children);
      assert forall j :: 0 <= j < |children| ==> Named(base, dir, children[j], names[j]);
      cells := CellsOf(children, names);
      ChildrenCover(base, dir, cells, children, names);
    }

    method CellsOf(children: seq<string>, ghost names: seq<string>) returns (cells: map<string, Dirent>)
      requires |names| == |children|
      requires forall j :: 0 <= j < |children| ==> children[j] in base.nodes && BaseOf(children[j]) == names[j]
      ensures forall j :: 0 <= j < |children| ==> names[j] in cells
      ensures forall n :: n in cells ==> exists j :: 0 <= j < |children| && names[j] == n && cells[n] == NodeDirent(base, n, children[j])
    {
      cells := map[];
      for i := 0 to |children|
        invariant forall j :: 0 <= j < i ==> names[j] in cells
        invariant forall n :: n in cells ==> exists j :: 0 <= j < i && names[j] == n && cells[n] == NodeDirent(base, n, children[j])
      {
        var p := children[i];
        var name := BaseOf(p);
        cells := cells[name := Dirent(name, base.nodes[p].typ, base.nodes[p].oid)];
        assert cells[names[i]] == NodeDirent(base, names[i], children[i]);
      }
    }

    /** One row of ListByPrefix applied to the cells. */
    method ApplyRow(dir: string, cells: map<string, Dirent>, e: Entry) returns (cells': map<string, Dirent>)
      requires IsKey(dir) && IsKey(e.path)
      ensures cells' == Marked(cells, MarkOf(overlay.rows, dir, e))
      ensures forall n :: n in cells' && n !in cells ==> IsName(n)
    {
      if e.path == dir { return cells; }
      var name := ChildName(dir, e.path);
      if name.None? { return cells; }
      assert IsName(name.value) by { ChildNameIsName(dir, e.path); }
      var childPath := CleanPath(JoinPath(dir, name.value));
      assert childPath == Child(dir, name.value) by { ChildKey(dir, name.value); }
      if IsDeleted(e) && e.path == childPath { return cells - {name.value}; }
      if childPath in overlay.rows && IsDeleted(overlay.rows[childPath]) { return cells; }
      return cells[name.value := Dirent(name.value, NodeTypeOf(e), "")];
    }

    /** The rows ListByPrefix gives, applied to the base's cells one by one. */
    method ApplyRows(dir: string, cells0: map<string, Dirent>, ovEntries: seq<Entry>, ghost marks: seq<Mark>)
      returns (cells: map<string, Dirent>)
      requires IsKey(dir) && Shows(cells0, base, dir) && |marks| == |ovEntries|
      requires forall i :: 0 <= i < |ovEntries| ==> IsKey(ovEntries[i].path) && marks[i] == MarkOf(overlay.rows, dir, ovEntries[i])
      ensures forall n :: n in cells ==> IsName(n)
      ensures forall n :: CellIs(cells, n, Cell(BaseCell(base, dir, n), marks, n))
    {
      cells := cells0;
      forall n | n in cells0 ensures IsName(n) { assert CellIs(cells0, n, BaseCell(base, dir, n)); }
      for i := 0 to |ovEntries|
        invariant forall n :: n in cells ==> IsName(n)
        invariant forall n :: CellIs(cells, n, Cell(BaseCell(base, dir, n), marks[..i], n))
      {
        ghost var before := cells;
        cells := ApplyRow(dir, cells, ovEntries[i]);
        MarkedNext(base, dir, before, cells, marks, i);
      }
      assert marks[..|ovEntries|] == marks;
    }

    /** ReaddirTyped */
    method ReaddirTyped(path: string) returns (out: seq<Dirent>)
      requires AllKeys(base, overlay.rows) && IsKey(CleanPath(path))
      ensures forall i, j :: 0 <= i < j < |out| ==> Less(out[i].name, out[j].name)
      ensures forall n :: (exists i :: 0 <= i < |out| && out[i].name == n) <==> Listed(base, overlay.rows, CleanPath(path), n)
      ensures forall i :: 0 <= i < |out| ==> CellGood(base, overlay.rows, CleanPath(path), out[i])
    {
      var dir := CleanPath(path);
      var cells := BaseChildren(dir);
      var ovEntries := overlay.Select(Candidates(overlay.rows, dir));
      ghost var sorted := Sorted(Candidates(overlay.rows, dir));
      assert forall i :: 0 <= i < |sorted| ==> sorted[i] in sorted;
      cells := ApplyRows(dir, cells, ovEntries, MarksOf(overlay.rows, dir, sorted));
      forall n ensures n in cells <==> Listed(base, overlay.rows, dir, n)
        ensures n in cells ==> cells[n].name == n && CellGood(base, overlay.rows, dir, cells[n])
      {
        assert CellIs(cells, n, Cell(BaseCell(base, dir, n), MarksOf(overlay.rows, dir, sorted), n));
        if IsName(n) { CellShows(base, overlay.rows, dir, n); }
      }
      out := SortCells(cells);
    }

    /** The cells in order of name. */
    method SortCells(cells: map<string, Dirent>) returns (out: seq<Dirent>)
      requires forall n :: n in cells ==> cells[n].name == n
      ensures forall i, j :: 0 <= i < j < |out| ==> Less(out[i].name, out[j].name)
      ensures forall i :: 0 <= i < |out| ==> out[i].name in cells && out[i] == cells[out[i].name]
      ensures forall n :: n in cells ==> exists i :: 0 <= i < |out| && out[i].name == n
    {
      var names := Sorted(cells.Keys);
      out := [];
      for i := 0 to |names|
        invariant |out| == i && forall j :: 0 <= j < i ==> names[j] in cells && out[j] == cells[names[j]]
      {
        assert names[i] in names;
        out := out + [cells[names[i]]];
      }
      forall n | n in cells ensures exists i :: 0 <= i < |out| && out[i].name == n {
        assert n in names;
        var i :| 0 <= i < |names| && names[i] == n;
        assert out[i].name == n;
      }
    }
  }

  /** The cells after one mark. */
  function Marked(cells: map<string, Dirent>, m: Mark): map<string, Dirent> {
    match m
    case Skip => cells
    case Hide(name) => cells - {name}
    case Put(name, typ) => cells[name := Dirent(name, typ, "")]
  }

  lemma CellSnoc(start: Option<Dirent>, marks: seq<Mark>, i: nat, n: string)
    requires i < |marks|
    ensures Cell(start, marks[..i + 1], n) == Revise(Cell(start, marks[..i], n), n, marks[i])
  {
    assert marks[..i + 1][..i] == marks[..i];
  }

  ghost predicate CellIs(cells: map<string, Dirent>, n: string, cell: Option<Dirent>) {
    if n in cells then cell == Some(cells[n]) else cell == None
  }

  lemma MarkedNext(base: Base, dir: string, before: map<string, Dirent>, cells: map<string, Dirent>, marks: seq<Mark>, i: nat)
    requires i < |marks| && cells == Marked(before, marks[i])
    requires forall n :: CellIs(before, n, Cell(BaseCell(base, dir, n), marks[..i], n))
    ensures forall n :: CellIs(cells, n, Cell(BaseCell(base, dir, n), marks[..i + 1], n))
  {
    forall n ensures CellIs(cells, n, Cell(BaseCell(base, dir, n), marks[..i + 1], n)) {
      CellSnoc(BaseCell(base, dir, n), marks, i, n);
      assert CellIs(before, n, Cell(BaseCell(base, dir, n), marks[..i], n));
    }
  }

  ghost predicate Shows(cells: map<string, Dirent>, base: Base, dir: string) {
    forall n :: CellIs(cells, n, BaseCell(base, dir, n))
  }

  /** The type a listing gives, in both cases. */
  ghost predicate CellGood(base: Base, rows: Rows, dir: string, d: Dirent) {
    var c := Child(dir, d.name);
    && (!RowBelow(rows, c) ==>
          Resolves(base, rows, c) && d.typ == if c in rows then NodeTypeOf(rows[c]) else base.nodes[c].typ)
    && (RowBelow(rows, c) ==> exists r :: Decides(rows, c, r) && d.typ == NodeTypeOf(rows[r]))
  }

  lemma BaseName(dir: string, name: string)
    requires IsKey(dir) && IsName(name)
    ensures var p := Child(dir, name); p[LastSlash(p) + 1..] == name
  {
    var p := Child(dir, name);
    forall k | 0 <= k < |name| ensures name[k] != '/' { assert name[k] in name; }
    if dir == "." {
      LastSlashIs(p, -1);
    } else {
      forall k | |dir| < k < |p| ensures p[k] != '/' { assert p[k] == name[k - |dir| - 1]; }
      LastSlashIs(p, |dir|);
    }
  }

  lemma NodeName(base: Base, dir: string, p: string) returns (name: string)
    requires IsKey(dir) && p in base.nodes && IsKey(p) && p != "." && Dir(p) == dir
    ensures IsName(name) && p == Child(dir, name) && BaseOf(p) == name
    ensures BaseCell(base, dir, name) == Some(Dirent(name, base.nodes[p].typ, base.nodes[p].oid))
  {
    name := KeyHasParent(p);
    BaseName(dir, name);
  }

  lemma CellNode(base: Base, dir: string, n: string)
    requires IsKey(dir) && BaseCell(base, dir, n).Some?
    ensures IsName(n) && Child(dir, n) in base.nodes && Child(dir, n) != "." && Dir(Child(dir, n)) == dir
  {
    DirOfChild(dir, n);
    ChildNotRoot(dir, n);
  }

  /** filepath.Base of a key */
  function BaseOf(p: string): string { p[LastSlash(p) + 1..] }

  function NodeDirent(base: Base, n: string, p: string): Dirent
    requires p in base.nodes
  {
    Dirent(n, base.nodes[p].typ, base.nodes[p].oid)
  }

  predicate NodeIn(base: Base, dir: string, p: string) {
    p in base.nodes && IsKey(p) && p != "." && Dir(p) == dir
  }

  predicate Named(base: Base, dir: string, p: string, n: string) {
    p in base.nodes && BaseOf(p) == n && IsName(n) && p == Child(dir, n)
  }

  lemma {:induction false} ChildNames(base: Base, dir: string, children: seq<string>) returns (names: seq<string>)
    requires IsKey(dir)
    requires forall j :: 0 <= j < |children| ==> NodeIn(base, dir, children[j])
    ensures |names| == |children|
    ensures forall j :: 0 <= j < |children| ==> Named(base, dir, children[j], names[j])
  {
    names := [];
    for i := 0 to |children|
      invariant |names| == i && forall j :: 0 <= j < i ==> Named(base, dir, children[j], names[j])
    {
      assert NodeIn(base, dir, children[i]);
      var n := NodeName(base, dir, children[i]);
      assert Named(base, dir, children[i], n);
      names := names + [n];
    }
  }

  lemma ChildrenCover(base: Base, dir: string, cells: map<string, Dirent>, children: seq<string>, names: seq<string>)
    requires IsKey(dir) && |names| == |children|
    requires forall j :: 0 <= j < |children| ==> children[j] in base.nodes && IsName(names[j]) && children[j] == Child(dir, names[j])
    requires forall n :: n in cells ==> exists j :: 0 <= j < |children| && names[j] == n && cells[n] == NodeDirent(base, n, children[j])
    requires forall j :: 0 <= j < |names| ==> names[j] in cells
    requires forall p :: p in base.nodes && p != "." && Dir(p) == dir ==> p in children
    ensures Shows(cells, base, dir)
  {
    forall n ensures CellIs(cells, n, BaseCell(base, dir, n)) {
      if BaseCell(base, dir, n).Some? {
        CellNode(base, dir, n);
        var j :| 0 <= j < |children| && children[j] == Child(dir, n);
        ChildInjective(dir, n, names[j]);
      }
    }
  }

  lemma ChildInjective(dir: string, m: string, n: string)
    requires Child(dir, m) == Child(dir, n)
    ensures m == n
  {
    assert Child(dir, m)[|Child(dir, m)| - |m|..] == m;
    assert Child(dir, n)[|Child(dir, n)| - |n|..] == n;
  }

  lemma ChildNotRoot(dir: string, n: string)
    requires IsKey(dir) && IsName(n)
    ensures Child(dir, n) != "."
  {
    if dir != "." { assert |dir + "/" + n| >= 2; }
  }

  // ---- where a listing and resolution part ----

  /** A whiteout deep below a directory that exists nowhere makes the directory appear, as a file
      that does not resolve. */
  lemma ListedWithoutResolving()
    ensures var rows := map["a/b" := Whiteout("a/b", 1, "")];
            var base := Base(map[], map[]);
            && AllKeys(base, rows) && Listed(base, rows, ".", "a") && !Resolves(base, rows, "a")
  {
    var rows := map["a/b" := Whiteout("a/b", 1, "")];
    SplitNoSlash("a", "b");
    SplitNoSlash("b", "");
    assert "a" + "/" + "b" == "a/b";
    assert Split("a/b") == ["a", "b"];
    assert Below("a/b", "a") by { assert "a/b"[..2] == "a/"; }
  }

  /** Deleting a/b of a base directory a makes a listing of the root give a as a file. */
  lemma WhiteoutBelowMakesFile(d: Dirent)
    ensures var rows := map["a/b" := Whiteout("a/b", 1, "")];
            var base := Base(map["a" := BaseNode(TDir, 493, "t"), "a/b" := BaseNode(TFile, 420, "o")], map["o" := []]);
            && Resolves(base, rows, "a") && base.nodes["a"].typ == TDir
            && Listed(base, rows, ".", "a")
            && (d.name == "a" && CellGood(base, rows, ".", d) ==> d.typ == TFile)
  {
    assert Below("a/b", "a") by { assert "a/b"[..2] == "a/"; }
  }
}
