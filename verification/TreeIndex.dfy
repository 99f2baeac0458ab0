/** Tree listings: NUL-delimited records, the fields of one record, and the directories a listing
    implies but does not name. */
module TreeIndex {
  import opened Wrappers
  import opened Text
  import opened BatchFraming
  import P = Paths

  datatype Node = Node(path: string, kind: string, mode: nat, oid: string, known: bool, size: int)

  // ---- records ----

  /** The text up to the first NUL, and what follows it. */
  function CutNul(s: string): (r: (string, string))
    ensures |r.0| <= |s| && (s != [] ==> |r.1| < |s|)
  {
    if s == [] then ([], [])
    else if s[0] == '\0' then ([], s[1..])
    else
      var (record, rest) := CutNul(s[1..]);
      ([s[0]] + record, rest)
  }

  /** The non-empty records of a stream; the last one needs no NUL. */
  function Records(s: string): seq<string>
    decreases |s|
  {
    if s == [] then []
    else
      var (record, rest) := CutNul(s);
      (if record == [] then [] else [record]) + Records(rest)
  }

  method ReadNullDelimited(stream: string) returns (records: seq<string>)
    ensures records == Records(stream)
  {
    records := [];
    var rest := stream;
    while rest != []
      invariant records + Records(rest) == Records(stream)
      decreases |rest|
    {
      var (record, next) := CutNul(rest);
      if record != [] { records := records + [record]; }
      rest := next;
    }
  }

  function Delimited(records: seq<string>): string {
    if records == [] then [] else records[0] + "\0" + Delimited(records[1..])
  }

  predicate NoNul(s: string) { forall i :: 0 <= i < |s| ==> s[i] != '\0' }

  lemma {:induction false} CutNulThere(record: string, rest: string)
    requires NoNul(record)
    ensures CutNul(record + "\0" + rest) == (record, rest)
  {
    var s := record + "\0" + rest;
    if record == [] {
      assert s[1..] == rest;
    } else {
      assert s[1..] == record[1..] + "\0" + rest;
      CutNulThere(record[1..], rest);
      assert [s[0]] + record[1..] == record;
    }
  }

  /** Whatever else paths hold, records without NUL come back as they were written. */
  lemma {:induction false} RecordsComeBack(records: seq<string>)
    requires forall i :: 0 <= i < |records| ==> records[i] != [] && NoNul(records[i])
    ensures Records(Delimited(records)) == records
    decreases |records|
  {
    if records != [] {
      CutNulThere(records[0], Delimited(records[1..]));
      RecordsComeBack(records[1..]);
    }
  }

  // ---- one record ----

  /** strings.SplitN(line, "\t", 2) */
  function CutTab(s: string): Option<(string, string)> {
    if s == [] then None
    else if s[0] == '\t' then Some(([], s[1..]))
    else match CutTab(s[1..])
      case None => None
      case Some((head, rest)) => Some(([s[0]] + head, rest))
  }

  /** strconv.ParseUint(s, 8, 32) with its error dropped: 0 for a bad digit, the largest value on overflow. */
  function ParseOctal(s: string, n: nat): nat {
    if s == [] then n
    else if !('0' <= s[0] <= '7') then 0
    else
      var next := 8 * n + (s[0] as int - 48);
      if next > 0xffff_ffff then 0xffff_ffff else ParseOctal(s[1..], next)
  }

  function ParseMode(s: string): nat { ParseOctal(s, 0) }

  /** Symlinks come as blobs of mode 120000, in octal; the type is in the four bits above the permissions. */
  function NormalizeGitType(kind: string, mode: nat): string {
    if (mode / 0x1000) % 16 == 0xa then "symlink" else if kind == "tree" then "dir" else "file"
  }

  /** parseTreeRecord: the node, and the kind git gave; submodules and malformed lines give none. */
  function ParseTreeRecord(line: string): Option<(Node, string)> {
    match CutTab(line)
    case None => None
    case Some((head, path)) =>
      var meta := Fields(head);
      if |meta| < 3 || meta[1] == "commit" then None
      else
        var mode := ParseMode(meta[0]);
        Some((Node(path, NormalizeGitType(meta[1], mode), mode, meta[2], false, 0), meta[1]))
  }

  lemma {:induction false} CutTabThere(head: string, path: string)
    requires forall i :: 0 <= i < |head| ==> head[i] != '\t'
    ensures CutTab(head + "\t" + path) == Some((head, path))
  {
    var s := head + "\t" + path;
    if head == [] {
      assert s[1..] == path;
    } else {
      assert s[1..] == head[1..] + "\t" + path;
      CutTabThere(head[1..], path);
      assert [s[0]] + head[1..] == head;
    }
  }

  predicate NoTab(s: string) { forall i :: 0 <= i < |s| ==> s[i] != '\t' }

  lemma WordHasNoTab(w: string)
    requires IsWord(w)
    ensures NoTab(w)
  {
    forall i | 0 <= i < |w| ensures w[i] != '\t' { assert !IsSpace(w[i]); }
  }

  lemma LineHasNoTab(a: string, b: string, c: string)
    requires NoTab(a) && NoTab(b) && NoTab(c)
    ensures NoTab(ObjectLine(a, b, c))
  {
    var tail := [' '] + c;
    assert NoTab(tail);
    var rest := b + tail;
    assert NoTab(rest);
  }

  /** A record that ls-tree prints is read back whole, whatever its path holds, tabs included. */
  lemma TreeRecordComesBack(mode: string, kind: string, oid: string, path: string)
    requires IsWord(mode) && IsWord(kind) && IsWord(oid)
    ensures ParseTreeRecord(ObjectLine(mode, kind, oid) + "\t" + path) ==
      if kind == "commit" then None
      else Some((Node(path, NormalizeGitType(kind, ParseMode(mode)), ParseMode(mode), oid, false, 0), kind))
  {
    WordHasNoTab(mode);
    WordHasNoTab(kind);
    WordHasNoTab(oid);
    LineHasNoTab(mode, kind, oid);
    CutTabThere(ObjectLine(mode, kind, oid), path);
    ObjectLineFields(mode, kind, oid);
  }

  // ---- implied directories ----

  predicate IsRoot(d: string) { d == "." || d == "/" }

  /** The directories above a path, itself first, up to but without a root. */
  function Ups(d: string): seq<string>
    decreases if IsRoot(d) then 0 else |d| + 1
  {
    if IsRoot(d) then []
    else
      P.DirShrinks(d);
      [d] + Ups(P.Dir(d))
  }

  function ImplicitDir(d: string): Node { Node(d, "dir", 0x1ed, "", true, 0) }

  predicate Lists(nodes: seq<Node>, path: string) {
    exists i :: 0 <= i < |nodes| && nodes[i].path == path
  }

  predicate Covered(d: string, nodes: seq<Node>) { IsRoot(d) || Lists(nodes, d) }

  /** A directory node for a path above a listed one that is not listed itself. */
  predicate Implied(n: Node, nodes: seq<Node>) {
    && n == ImplicitDir(n.path) && !IsRoot(n.path) && !Lists(nodes, n.path)
    && exists j :: 0 <= j < |nodes| && n.path in Ups(P.Dir(nodes[j].path))
  }

  /** The nodes after the listed ones: implied, each once. */
  predicate Additions(r: seq<Node>, nodes: seq<Node>) {
    && nodes <= r
    && (forall i :: |nodes| <= i < |r| ==> Implied(r[i], nodes))
    && (forall i, j :: |nodes| <= i < j < |r| ==> r[i].path != r[j].path)
  }

  /** Every directory above the node is covered, or is the one the walk has come to. */
  predicate Settled(r: seq<Node>, i: int, d: string)
    requires 0 <= i < |r|
  {
    Covered(P.Dir(r[i].path), r) || P.Dir(r[i].path) == d
  }

  ghost predicate SeenIs(seen: set<string>, r: seq<Node>) { forall p :: p in seen <==> p == "." || Lists(r, p) }

  /** Of the listed nodes the first i have been walked up from, and all added ones. */
  predicate Walked(r: seq<Node>, nodes: seq<Node>, i: nat) {
    forall j :: 0 <= j < |r| && (j < i || j >= |nodes|) ==> Covered(P.Dir(r[j].path), r)
  }

  predicate Walking(r: seq<Node>, nodes: seq<Node>, i: nat, d: string) {
    forall j :: 0 <= j < |r| && (j < i || j >= |nodes|) ==> Settled(r, j, d)
  }

  method AddImplicitDirs(nodes: seq<Node>) returns (r: seq<Node>)
    ensures Additions(r, nodes)
    ensures forall i :: 0 <= i < |r| ==> Covered(P.Dir(r[i].path), r)
  {
    var seen := {"."} + set i | 0 <= i < |nodes| :: nodes[i].path;
    r := nodes;
    for i := 0 to |nodes|
      invariant Additions(r, nodes) && SeenIs(seen, r) && Walked(r, nodes, i)
    {
      var d := P.Dir(nodes[i].path);
      while d != "." && d != "/" && d !in seen
        invariant Additions(r, nodes) && SeenIs(seen, r) && Walking(r, nodes, i + 1, d)
        invariant IsRoot(d) || d in Ups(P.Dir(nodes[i].path))
        decreases if IsRoot(d) then 0 else |d| + 1
      {
        P.DirShrinks(d);
        UpsStep(P.Dir(nodes[i].path), d);
        Extend(r, nodes, i, d);
        seen := seen + {d};
        r := r + [ImplicitDir(d)];
        d := P.Dir(d);
      }
      WalkEnds(r, nodes, i + 1, d);
    }
  }

  lemma WalkEnds(r: seq<Node>, nodes: seq<Node>, i: nat, d: string)
    requires Walking(r, nodes, i, d) && Covered(d, r)
    ensures Walked(r, nodes, i)
  {
    forall j | 0 <= j < |r| && (j < i || j >= |nodes|) ensures Covered(P.Dir(r[j].path), r) { assert Settled(r, j, d); }
  }

  /** Adding the directory the walk has come to. */
  lemma ListsOneMore(r: seq<Node>, x: Node)
    ensures forall p :: Lists(r + [x], p) <==> Lists(r, p) || p == x.path
  {
    var t := r + [x];
    assert t[|r|].path == x.path;
    forall p | Lists(r, p) ensures Lists(t, p) {
      var j :| 0 <= j < |r| && r[j].path == p;
      assert t[j].path == p;
    }
  }

  lemma StaysWalking(r: seq<Node>, nodes: seq<Node>, i: nat, d: string)
    requires Additions(r, nodes) && i <= |nodes| && !IsRoot(d) && Walking(r, nodes, i, d)
    ensures Walking(r + [ImplicitDir(d)], nodes, i, P.Dir(d))
  {
    var t := r + [ImplicitDir(d)];
    ListsOneMore(r, ImplicitDir(d));
    forall j | 0 <= j < |t| && (j < i || j >= |nodes|) ensures Settled(t, j, P.Dir(d)) {
      if j < |r| { assert t[j] == r[j] && Settled(r, j, d); }
    }
  }

  lemma Extend(r: seq<Node>, nodes: seq<Node>, i: nat, d: string)
    requires Additions(r, nodes) && i < |nodes| && !IsRoot(d) && !Lists(r, d) && d in Ups(P.Dir(nodes[i].path))
    ensures Additions(r + [ImplicitDir(d)], nodes)
    ensures forall p :: Lists(r + [ImplicitDir(d)], p) <==> Lists(r, p) || p == d
    ensures Walking(r, nodes, i + 1, d) ==> Walking(r + [ImplicitDir(d)], nodes, i + 1, P.Dir(d))
  {
    ListsOneMore(r, ImplicitDir(d));
    assert !Lists(nodes, d) by {
      forall j | 0 <= j < |nodes| ensures nodes[j].path != d { assert r[j] == nodes[j]; }
    }
    assert Implied(ImplicitDir(d), nodes);
    if Walking(r, nodes, i + 1, d) { StaysWalking(r, nodes, i + 1, d); }
  }

  lemma {:induction false} UpsStep(d: string, e: string)
    requires e in Ups(d) && !IsRoot(e)
    ensures IsRoot(P.Dir(e)) || P.Dir(e) in Ups(d)
    decreases |Ups(d)|
  {
    if !IsRoot(d) {
      P.DirShrinks(d);
      if e != d { UpsStep(P.Dir(d), e); }
    }
  }
}
