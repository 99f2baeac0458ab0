/** FileHandle.read against closeCachedFile, the mutations that bracket the engine with closes, and
    generation swaps: every section under a handle's mutex, and every unlocked action, is one step. */
module HandleCache {
  import opened Wrappers

  type Path = string

  /** Who will close an open file; Closed once it has been closed. */
  datatype Owner = ByHandle(h: nat) | ByReader(r: nat) | ByCloser(w: nat) | Closed

  /** An opened cache file: the generation whose content it holds, and its keeper. */
  datatype Fd = Fd(gen: int, owner: Owner)

  datatype Handle = Handle(path: Path, file: Option<nat>, gen: int, count: nat)

  /** Where a read stands.  Rechecking sits between the drop of a stale file and reading the counter. */
  datatype RPc =
    | Begun
    | Loaded(gen: int)
    | Dropping(fd: nat)
    | Rechecking
    | Counted(count: nat)
    | NoRow(count: nat)
    | HasGen(count: nat, gen: int)
    | Opened(count: nat, gen: int, fd: nat)
    | Rejected(fd: nat)
    | Direct
    | Served(gen: int)
    | Plain

  /** `lived` is every generation current since the read began.  `late` says that some successful
      mutation of the path had returned before the read began and its row has stayed ever since. */
  datatype Reader = Reader(h: nat, lived: set<int>, late: bool, pc: RPc)

  /** A mutation, or the release of a handle: which round of closes it is in, the handles its snapshot
      still has to close, and the file it has taken out.  `kept` says that the mutation succeeded and
      the row has stayed since. */
  datatype Round = First | Second | Release
  datatype Writer =
    | Start(path: Path, round: Round, kept: bool)
    | Closing(path: Path, round: Round, rest: set<nat>, fd: Option<nat>, kept: bool)
    | Mutating(path: Path)
    | Returned(path: Path, kept: bool)
    | Failed(path: Path)

  /** `fault` is set by a read of a closed file, or by a second close. */
  datatype Files = Files(fds: map<nat, Fd>, fault: bool)

  datatype State = State(
    gen: int, rows: set<Path>, table: set<nat>, handles: map<nat, Handle>,
    files: Files, readers: map<nat, Reader>, writers: map<nat, Writer>)

  datatype Event =
    // the world around the handles
    | Swap(gen: int)
    | RowMade(path: Path)
    | RowDropped(path: Path)
    | OpenHandle(h: nat, path: Path)
    // a read
    | Begin(r: nat, h: nat)
    | LoadGen(r: nat)
    | TryFast(r: nat)
    | CloseStale(r: nat)
    | Count(r: nat)
    | LookRow(r: nat)
    | LoadBaseGen(r: nat)
    | OpenBase(r: nat, fd: nat)
    | Fail(r: nat)
    | Install(r: nat)
    | CloseOwn(r: nat)
    | ReadEngine(r: nat)
    // a mutation or a release
    | BeginWrite(w: nat, path: Path)
    | BeginRelease(w: nat, h: nat)
    | Snapshot(w: nat)
    | TakeOut(w: nat, h: nat)
    | CloseTaken(w: nat)
    | RoundDone(w: nat)
    | Mutate(w: nat, rowMade: bool, ok: bool)

  // ---- pieces of the steps ----

  predicate IsClosed(f: Files, fd: nat) { fd !in f.fds || f.fds[fd].owner == Closed }

  /** f.Close() */
  function CloseFd(f: Files, fd: nat): Files {
    if IsClosed(f, fd) then f.(fault := true) else Pass(f, fd, Closed)
  }

  function ReadFd(f: Files, fd: nat): Files {
    if IsClosed(f, fd) then f.(fault := true) else f
  }

  function Pass(f: Files, fd: nat, owner: Owner): Files {
    if fd in f.fds then f.(fds := f.fds[fd := f.fds[fd].(owner := owner)]) else f.(fault := true)
  }

  function WriterTo(s: State, w: nat, next: Writer): State { s.(writers := s.writers[w := next]) }

  /** The handle without its file, its counter moved on. */
  function Emptied(h: Handle): Handle { h.(file := None, gen := 0, count := h.count + 1) }

  predicate Over(pc: RPc) { pc.Served? || pc.Plain? }

  /** SetGeneration, seen by every read under way. */
  function Swapped(s: State, gen: int): State {
    s.(gen := gen, readers := map r | r in s.readers ::
      if Over(s.readers[r].pc) then s.readers[r] else s.readers[r].(lived := s.readers[r].lived + {gen}))
  }

  /** The row of a path goes: claims that rest on its having stayed go with it. */
  function Unkept(w: Writer, path: Path): Writer {
    if w.path == path && (w.Start? || w.Closing? || w.Returned?) then w.(kept := false) else w
  }

  function Dropped(s: State, path: Path): State {
    s.(rows := s.rows - {path},
       writers := map w | w in s.writers :: Unkept(s.writers[w], path),
       readers := map r | r in s.readers ::
         if s.readers[r].h in s.handles && s.handles[s.readers[r].h].path == path
         then s.readers[r].(late := false) else s.readers[r])
  }

  predicate SomeReturned(writers: map<nat, Writer>, path: Path) {
    exists w :: w in writers && writers[w] == Returned(path, true)
  }

  /** The first critical section of read: serve from the cached file, or drop a stale one, or go on. */
  function TryFastStep(f: Files, h: Handle, r: nat, gen: int): (Files, Handle, RPc) {
    match h.file
    case Some(fd) =>
      if h.gen == gen then (ReadFd(f, fd), h, Served(gen))
      else (Pass(f, fd, ByReader(r)), Emptied(h), Dropping(fd))
    case None => (f, h, Counted(h.count))
  }

  /** The last one: keep the freshly opened file unless the handle was invalidated or the generation moved. */
  function InstallStep(f: Files, h: Handle, id: nat, pc: RPc, gen: int): (Files, Handle, RPc)
    requires pc.Opened?
  {
    if h.count != pc.count || pc.gen != gen then (f, h, Rejected(pc.fd))
    else if h.file.Some? && h.gen == pc.gen then (ReadFd(CloseFd(f, pc.fd), h.file.value), h, Served(pc.gen))
    else
      var g := if h.file.Some? then CloseFd(f, h.file.value) else f;
      (ReadFd(Pass(g, pc.fd, ByHandle(id)), pc.fd), h.(file := Some(pc.fd), gen := pc.gen), Served(pc.gen))
  }

  /** A step of one read. */
  predicate Reads(e: Event) {
    e.LoadGen? || e.TryFast? || e.CloseStale? || e.Count? || e.LookRow? || e.LoadBaseGen? || e.OpenBase? || e.Fail?
    || e.Install? || e.CloseOwn? || e.ReadEngine?
  }

  predicate CanRead(f: Files, pc: RPc, e: Event)
    requires Reads(e)
  {
    match e
    case LoadGen(_) => pc.Begun?
    case TryFast(_) => pc.Loaded?
    case CloseStale(_) => pc.Dropping?
    case Count(_) => pc.Rechecking?
    case LookRow(_) => pc.Counted?
    case LoadBaseGen(_) => pc.NoRow?
    case OpenBase(_, fd) => pc.HasGen? && fd !in f.fds
    case Fail(_) => pc.Counted? || pc.NoRow? || pc.HasGen?
    case Install(_) => pc.Opened?
    case CloseOwn(_) => pc.Rejected?
    case ReadEngine(_) => pc.Direct?
  }

  /** What a step of read r on handle id does to the files, the handle and the read. */
  function ReadStep(f: Files, h: Handle, id: nat, pc: RPc, gen: int, row: bool, e: Event): (Files, Handle, RPc)
    requires Reads(e) && CanRead(f, pc, e)
  {
    match e
    case LoadGen(_) => (f, h, Loaded(gen))
    case TryFast(r) => TryFastStep(f, h, r, pc.gen)
    case CloseStale(_) => (CloseFd(f, pc.fd), h, Rechecking)
    case Count(_) => (f, h, Counted(h.count))
    case LookRow(_) => (f, h, if row then Direct else NoRow(pc.count))
    case LoadBaseGen(_) => (f, h, HasGen(pc.count, gen))
    case OpenBase(r, fd) => (f.(fds := f.fds[fd := Fd(pc.gen, ByReader(r))]), h, Opened(pc.count, pc.gen, fd))
    case Fail(_) => (f, h, Plain)
    case Install(_) => InstallStep(f, h, id, pc, gen)
    case CloseOwn(_) => (CloseFd(f, pc.fd), h, Direct)
    case ReadEngine(_) => (f, h, Plain)
  }

  /** closeCachedFile, its locked half. */
  function TakeOutStep(f: Files, h: Handle, w: nat): (Files, Handle, Option<nat>) {
    (if h.file.Some? then Pass(f, h.file.value, ByCloser(w)) else f, Emptied(h), h.file)
  }

  function AfterRound(c: Writer): Writer
    requires c.Closing?
  {
    match c.round
    case First => Mutating(c.path)
    case Second => Returned(c.path, c.kept)
    case Release => Returned(c.path, false)
  }

  function MutateStep(s: State, w: nat, path: Path, rowMade: bool, ok: bool): State {
    var t := if rowMade then s.(rows := s.rows + {path}) else s;
    WriterTo(t, w, if ok then Start(path, Second, true) else Failed(path))
  }

  // ---- the machine ----

  predicate Enabled(s: State, e: Event) {
    if Reads(e) then
      e.r in s.readers && s.readers[e.r].h in s.handles && CanRead(s.files, s.readers[e.r].pc, e)
    else match e
      case Swap(_) => true
      case RowMade(_) => true
      case RowDropped(_) => true
      case OpenHandle(h, _) => h !in s.handles
      case Begin(r, h) => r !in s.readers && h in s.table && h in s.handles
      case BeginWrite(w, _) => w !in s.writers
      case BeginRelease(w, h) => w !in s.writers && h in s.table && h in s.handles
      case Snapshot(w) => w in s.writers && s.writers[w].Start?
      case TakeOut(w, h) => w in s.writers && s.writers[w].Closing? && s.writers[w].fd == None && h in s.writers[w].rest && h in s.handles
      case CloseTaken(w) => w in s.writers && s.writers[w].Closing? && s.writers[w].fd.Some?
      case RoundDone(w) => w in s.writers && s.writers[w].Closing? && s.writers[w].fd == None && s.writers[w].rest == {}
      // a mutation that succeeds leaves a row: a live one, or for Unlink a whiteout
      case Mutate(w, rowMade, ok) => w in s.writers && s.writers[w].Mutating? && (ok && !rowMade ==> s.writers[w].path in s.rows)
  }

  function Apply(s: State, e: Event): State
    requires Enabled(s, e)
  {
    if Reads(e) then
      var read := s.readers[e.r];
      var h := s.handles[read.h];
      var (f, h', pc') := ReadStep(s.files, h, read.h, read.pc, s.gen, h.path in s.rows, e);
      s.(files := f, handles := s.handles[read.h := h'], readers := s.readers[e.r := read.(pc := pc')])
    else match e
      case Swap(gen) => Swapped(s, gen)
      case RowMade(path) => s.(rows := s.rows + {path})
      case RowDropped(path) => Dropped(s, path)
      case OpenHandle(h, path) => s.(table := s.table + {h}, handles := s.handles[h := Handle(path, None, 0, 0)])
      case Begin(r, h) => s.(readers := s.readers[r := Reader(h, {s.gen}, SomeReturned(s.writers, s.handles[h].path), Begun)])
      case BeginWrite(w, path) => WriterTo(s, w, Start(path, First, false))
      case BeginRelease(w, h) => WriterTo(s.(table := s.table - {h}), w, Closing(s.handles[h].path, Release, {h}, None, false))
      case Snapshot(w) =>
        var c := s.writers[w];
        WriterTo(s, w, Closing(c.path, c.round, (set h | h in s.table && h in s.handles && s.handles[h].path == c.path), None, c.kept))
      case TakeOut(w, h) =>
        var (f, h', fd) := TakeOutStep(s.files, s.handles[h], w);
        WriterTo(s.(files := f, handles := s.handles[h := h']), w, s.writers[w].(rest := s.writers[w].rest - {h}, fd := fd))
      case CloseTaken(w) => WriterTo(s.(files := CloseFd(s.files, s.writers[w].fd.value)), w, s.writers[w].(fd := None))
      case RoundDone(w) => WriterTo(s, w, AfterRound(s.writers[w]))
      case Mutate(w, rowMade, ok) => MutateStep(s, w, s.writers[w].path, rowMade, ok)
  }

  predicate Runs(s: State, es: seq<Event>)
    decreases |es|
  {
    es == [] || (Enabled(s, es[0]) && Runs(Apply(s, es[0]), es[1..]))
  }

  function After(s: State, es: seq<Event>): State
    requires Runs(s, es)
    decreases |es|
  {
    if es == [] then s else After(Apply(s, es[0]), es[1..])
  }

  function Init(gen: int, rows: set<Path>): State { State(gen, rows, {}, map[], Files(map[], false), map[], map[]) }
}
