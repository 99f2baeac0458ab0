/** The stream of `git cat-file --batch`: how a response is framed and how fetchToFile and readBlob
    read one.  A byte is a char below 256; nothing here depends on more than equality of bytes. */
module BatchFraming {
  import opened Wrappers
  import opened Text

  datatype Object = Object(kind: string, content: string)

  type Git = map<string, Object>

  const INT64_MAX: int := 0x7fff_ffff_ffff_ffff
  const MAX_READ_BLOB_BYTES: int := 0x7fff_ffff

  predicate IsWord(s: string) { s != [] && forall i :: 0 <= i < |s| ==> !IsSpace(s[i]) }

  /** Names are words, and no object is longer than an int64 can count. */
  predicate GitOk(git: Git) {
    forall oid :: oid in git ==> IsWord(git[oid].kind) && git[oid].kind != "missing" && |git[oid].content| <= INT64_MAX
  }

  // ---- decimal numbers ----

  function DigitChar(d: nat): char
    requires d < 10
  {
    (d + 48) as char
  }

  function Print(n: nat): (s: string)
    ensures s != [] && forall i :: 0 <= i < |s| ==> '0' <= s[i] <= '9'
  {
    if n < 10 then [DigitChar(n)] else Print(n / 10) + [DigitChar(n % 10)]
  }

  function ParseDigits(s: string): Option<nat> {
    if s == [] then Some(0)
    else
      var c := s[|s| - 1];
      match ParseDigits(s[..|s| - 1])
      case Some(n) => if '0' <= c <= '9' then Some(10 * n + (c as int - 48)) else None
      case None => None
  }

  /** strconv.ParseInt(s, 10, 64) */
  function ParseInt(s: string): (r: Option<int>) {
    var negative := s != [] && s[0] == '-';
    var digits := if s != [] && (s[0] == '-' || s[0] == '+') then s[1..] else s;
    if digits == [] then None
    else match ParseDigits(digits)
      case None => Option<int>.None
      case Some(n) =>
        if negative then (if n <= INT64_MAX + 1 then Some(0 - n as int) else None)
        else if n <= INT64_MAX then Some(n as int) else None
  }

  lemma {:induction false} ParsePrint(n: nat)
    ensures ParseDigits(Print(n)) == Some(n)
  {
    if n < 10 {
      assert ParseDigits([]) == Some(0);
      assert [DigitChar(n)][..0] == [];
    } else {
      ParsePrint(n / 10);
      var s := Print(n / 10);
      assert (s + [DigitChar(n % 10)])[..|s|] == s;
    }
  }

  // ---- fields ----

  /** The text after the first word. */
  function AfterWord(s: string): (t: string)
    ensures |t| + |Word(s)| == |s|
  {
    if s == [] || IsSpace(s[0]) then s else AfterWord(s[1..])
  }

  /** strings.Fields */
  function Fields(s: string): seq<string>
    decreases |s|
  {
    var t := TrimLeft(s);
    if t == [] then [] else [Word(t)] + Fields(AfterWord(t))
  }

  lemma {:induction false} WordThen(w: string, rest: string)
    requires forall i :: 0 <= i < |w| ==> !IsSpace(w[i])
    requires rest == [] || IsSpace(rest[0])
    ensures Word(w + rest) == w && AfterWord(w + rest) == rest
  {
    if w == [] {
      assert w + rest == rest;
    } else {
      assert (w + rest)[1..] == w[1..] + rest;
      WordThen(w[1..], rest);
    }
  }

  lemma FieldsFirst(w: string, rest: string)
    requires IsWord(w) && (rest == [] || rest[0] == ' ')
    ensures Fields(w + rest) == [w] + Fields(rest)
  {
    WordThen(w, rest);
    assert (w + rest)[0] == w[0];
  }

  lemma FieldsSkip(s: string)
    ensures Fields([' '] + s) == Fields(s)
  {
    assert ([' '] + s)[1..] == s;
    assert TrimLeft([' '] + s) == TrimLeft(s);
  }

  lemma LastField(w: string)
    requires IsWord(w)
    ensures Fields(w) == [w]
  {
    FieldsFirst(w, []);
    assert w + [] == w && Fields([]) == [];
  }

  lemma FieldThen(a: string, rest: string)
    requires IsWord(a)
    ensures Fields(a + ([' '] + rest)) == [a] + Fields(rest)
  {
    FieldsSkip(rest);
    FieldsFirst(a, [' '] + rest);
  }

  // ---- responses ----

  function ObjectLine(oid: string, kind: string, size: string): string { oid + ([' '] + (kind + ([' '] + size))) }

  function MissingLine(oid: string): string { oid + ([' '] + "missing") }

  function Header(git: Git, oid: string): string {
    if oid in git then ObjectLine(oid, git[oid].kind, Print(|git[oid].content|)) else MissingLine(oid)
  }

  function Tail(git: Git, oid: string): string {
    if oid in git then git[oid].content + "\n" else ""
  }

  function Render(git: Git, oid: string): string { Header(git, oid) + "\n" + Tail(git, oid) }

  /** ReadString('\n'): the line without its end, and what follows. */
  function CutLine(s: string): (r: Option<(string, string)>)
    ensures r.Some? ==> s == r.value.0 + "\n" + r.value.1
  {
    if s == [] then None
    else if s[0] == '\n' then Some(([], s[1..]))
    else match CutLine(s[1..])
      case None => None
      case Some((line, rest)) => Some(([s[0]] + line, rest))
  }

  predicate NoLF(s: string) { forall i :: 0 <= i < |s| ==> s[i] != '\n' }

  lemma {:induction false} CutLineThere(line: string, rest: string)
    requires NoLF(line)
    ensures CutLine(line + "\n" + rest) == Some((line, rest))
  {
    var s := line + "\n" + rest;
    if line == [] {
      assert s[1..] == rest;
    } else {
      assert s[1..] == line[1..] + "\n" + rest;
      CutLineThere(line[1..], rest);
      assert [s[0]] + line[1..] == line;
    }
  }

  lemma {:induction false} CutLineMissing(s: string)
    requires NoLF(s)
    ensures CutLine(s) == None
  {
    if s != [] { CutLineMissing(s[1..]); }
  }

  /** readObjectSize: the size the header announces, and the stream after the header. */
  function ReadSize(stream: string): (Option<int>, string) {
    match CutLine(stream)
    case None => (None, "")
    case Some((line, rest)) => (SizeIn(Fields(line)), rest)
  }

  function SizeIn(fields: seq<string>): Option<int> {
    if |fields| < 2 || fields[1] == "missing" || |fields| < 3 then None else ParseInt(fields[2])
  }

  datatype Outcome = Got(data: string) | TooLarge | Failed

  /** What the file system does to a fetch. */
  datatype Disk = Disk(createFails: bool, closeFails: bool, renameFails: bool)

  function Drop(s: string, n: int): string { if n <= 0 then s else if n >= |s| then "" else s[n..] }

  /** fetchToFile after the header: the blob put in place, and the stream left over. */
  function FetchBody(size: Option<int>, body: string, disk: Disk): (Outcome, string) {
    if size.None? then (Failed, body)
    else if disk.createFails then (Failed, Drop(body, size.value + 1))
    else if size.value < 0 then (Failed, Drop(body, 1))
    else if |body| < size.value + 1 then (Failed, "")
    else if disk.closeFails || disk.renameFails then (Failed, body[size.value + 1..])
    else (Got(body[..size.value]), body[size.value + 1..])
  }

  function FetchStream(stream: string, disk: Disk): (Outcome, string) {
    var (size, body) := ReadSize(stream);
    FetchBody(size, body, disk)
  }

  /** readBlob after the header; an oversize blob is left unread. */
  function ReadBody(size: Option<int>, body: string, maxBytes: int): (Outcome, string) {
    if size.None? || size.value < 0 then (Failed, body)
    else if size.value > maxBytes || size.value > MAX_READ_BLOB_BYTES then (TooLarge, body)
    else if |body| < size.value + 1 then (Failed, "")
    else (Got(body[..size.value]), body[size.value + 1..])
  }

  function ReadStream(stream: string, maxBytes: int): (Outcome, string) {
    var (size, body) := ReadSize(stream);
    ReadBody(size, body, maxBytes)
  }

  lemma WordHasNoLF(w: string)
    requires IsWord(w)
    ensures NoLF(w)
  {
    forall i | 0 <= i < |w| ensures w[i] != '\n' { assert !IsSpace(w[i]); }
  }

  lemma PrintIsWord(n: nat)
    ensures IsWord(Print(n))
  {
    var s := Print(n);
    forall i | 0 <= i < |s| ensures !IsSpace(s[i]) { assert '0' <= s[i] <= '9'; }
  }

  lemma LinesHaveNoLF(oid: string, kind: string, size: string)
    requires NoLF(oid) && NoLF(kind) && NoLF(size)
    ensures NoLF(ObjectLine(oid, kind, size)) && NoLF(MissingLine(oid))
  {
    var tail := [' '] + size;
    assert NoLF(tail);
    var rest := kind + tail;
    assert NoLF(rest);
  }

  lemma SizeReads(git: Git, oid: string)
    requires GitOk(git) && oid in git
    ensures ParseInt(Print(|git[oid].content|)) == Some(|git[oid].content|)
  {
    ParsePrint(|git[oid].content|);
    var s := Print(|git[oid].content|);
    assert '0' <= s[0] <= '9';
  }

  function SizeOf(git: Git, oid: string): Option<int> {
    if oid in git then Some(|git[oid].content|) else None
  }

  lemma TwoFields(a: string, b: string)
    requires IsWord(a) && IsWord(b)
    ensures Fields(a + ([' '] + b)) == [a, b]
  {
    LastField(b);
    FieldThen(a, b);
  }

  lemma ObjectLineFields(oid: string, kind: string, size: string)
    requires IsWord(oid) && IsWord(kind) && IsWord(size)
    ensures Fields(ObjectLine(oid, kind, size)) == [oid, kind, size]
  {
    TwoFields(kind, size);
    FieldThen(oid, kind + ([' '] + size));
  }

  lemma MissingLineFields(oid: string)
    requires IsWord(oid)
    ensures Fields(MissingLine(oid)) == [oid, "missing"]
  {
    TwoFields(oid, "missing");
  }

  lemma HeaderHasNoLF(git: Git, oid: string)
    requires GitOk(git) && IsWord(oid)
    ensures NoLF(Header(git, oid))
  {
    WordHasNoLF(oid);
    if oid in git {
      PrintIsWord(|git[oid].content|);
      WordHasNoLF(Print(|git[oid].content|));
      WordHasNoLF(git[oid].kind);
      LinesHaveNoLF(oid, git[oid].kind, Print(|git[oid].content|));
    } else {
      LinesHaveNoLF(oid, "", "");
    }
  }

  lemma HeaderReads(git: Git, oid: string)
    requires GitOk(git) && IsWord(oid)
    ensures NoLF(Header(git, oid)) && SizeIn(Fields(Header(git, oid))) == SizeOf(git, oid)
  {
    HeaderHasNoLF(git, oid);
    if oid in git {
      PrintIsWord(|git[oid].content|);
      ObjectLineFields(oid, git[oid].kind, Print(|git[oid].content|));
      SizeReads(git, oid);
    } else {
      MissingLineFields(oid);
    }
  }

  /** A response cut short has no whole header, or has it and a part of what follows. */
  lemma Arrived(header: string, tail: string, arrived: string) returns (body: string)
    requires NoLF(header) && arrived <= header + "\n" + tail
    ensures |arrived| <= |header| ==> NoLF(arrived)
    ensures |arrived| > |header| ==> arrived == header + "\n" + body && body <= tail && (body == tail <==> arrived == header + "\n" + tail)
  {
    var all := header + "\n" + tail;
    assert arrived == all[..|arrived|];
    if |arrived| <= |header| {
      body := "";
      assert arrived == header[..|arrived|];
    } else {
      body := arrived[|header| + 1..];
      assert arrived == header + "\n" + body && body == tail[..|body|];
    }
  }

  lemma ReadSizeOfResponse(git: Git, oid: string, arrived: string) returns (body: string)
    requires GitOk(git) && IsWord(oid) && arrived <= Render(git, oid)
    ensures body <= Tail(git, oid)
    ensures (ReadSize(arrived) == (None, "") && arrived != Render(git, oid)) ||
      (ReadSize(arrived) == (SizeOf(git, oid), body) && (body == Tail(git, oid) <==> arrived == Render(git, oid)))
  {
    var header := Header(git, oid);
    HeaderReads(git, oid);
    body := Arrived(header, Tail(git, oid), arrived);
    if |arrived| <= |header| {
      body := "";
      CutLineMissing(arrived);
    } else {
      CutLineThere(header, body);
    }
  }

  lemma BodyIsExact(content: string, body: string, disk: Disk, maxBytes: int)
    requires body <= content + "\n"
    ensures FetchBody(Some(|content|), body, disk).0.Got? <==> body == content + "\n" && disk == Disk(false, false, false)
    ensures ReadBody(Some(|content|), body, maxBytes).0.Got? <==> body == content + "\n" && |content| <= maxBytes && |content| <= MAX_READ_BLOB_BYTES
    ensures FetchBody(Some(|content|), body, disk).0.Got? ==> FetchBody(Some(|content|), body, disk) == (Got(content), "")
    ensures ReadBody(Some(|content|), body, maxBytes).0.Got? ==> ReadBody(Some(|content|), body, maxBytes) == (Got(content), "")
  {
    if |body| == |content| + 1 {
      assert body == content + "\n" && body[..|content|] == content && body[|content| + 1..] == "";
    } else {
      assert |body| <= |content|;
    }
  }

  /** However a response is cut short, and whatever the disk does, no wrong blob is ever taken for the
      right one; a blob is got exactly from a whole response and then the stream is at its end. */
  lemma NoWrongBlob(git: Git, oid: string, arrived: string, disk: Disk, maxBytes: int)
    requires GitOk(git) && IsWord(oid) && arrived <= Render(git, oid)
    ensures FetchStream(arrived, disk).0.Got? <==> oid in git && arrived == Render(git, oid) && disk == Disk(false, false, false)
    ensures FetchStream(arrived, disk).0.Got? ==> FetchStream(arrived, disk) == (Got(git[oid].content), "")
    ensures ReadStream(arrived, maxBytes).0.Got? <==>
      (oid in git && arrived == Render(git, oid) && |git[oid].content| <= maxBytes && |git[oid].content| <= MAX_READ_BLOB_BYTES)
    ensures ReadStream(arrived, maxBytes).0.Got? ==> ReadStream(arrived, maxBytes) == (Got(git[oid].content), "")
  {
    var body := ReadSizeOfResponse(git, oid, arrived);
    if oid in git { BodyIsExact(git[oid].content, body, disk, maxBytes); }
  }
}
