/** What every interleaving of reads, mutations, releases and generation swaps keeps. */
module HandleCacheSafety {
  import opened Wrappers
  import opened HandleCache

  // ---- every open file has one keeper ----

  predicate OwnedBy(fds: map<nat, Fd>, fd: nat, owner: Owner) { fd in fds && fds[fd].owner == owner }

  predicate HandleOk(fds: map<nat, Fd>, id: nat, h: Handle) {
    h.file.Some? ==> OwnedBy(fds, h.file.value, ByHandle(id)) && fds[h.file.value].gen == h.gen
  }

  function Held(pc: RPc): Option<nat> {
    match pc
    case Dropping(fd) => Some(fd)
    case Opened(_, _, fd) => Some(fd)
    case Rejected(fd) => Some(fd)
    case _ => None
  }

  predicate ReaderHolds(fds: map<nat, Fd>, r: nat, pc: RPc) {
    && (Held(pc).Some? ==> OwnedBy(fds, Held(pc).value, ByReader(r)))
    && (pc.Opened? ==> fds[pc.fd].gen == pc.gen)
  }

  predicate WriterHolds(fds: map<nat, Fd>, w: nat, c: Writer) {
    c.Closing? && c.fd.Some? ==> OwnedBy(fds, c.fd.value, ByCloser(w))
  }

  predicate FdsOk(s: State) {
    && (forall h :: h in s.handles ==> HandleOk(s.files.fds, h, s.handles[h]))
    && (forall r :: r in s.readers ==> ReaderHolds(s.files.fds, r, s.readers[r].pc))
    && (forall w :: w in s.writers ==> WriterHolds(s.files.fds, w, s.writers[w]))
    && !s.files.fault
  }

  // ---- a read is served from a generation of its own time ----

  predicate Timely(gen: int, r: Reader) {
    && (!Over(r.pc) ==> gen in r.lived)
    && (r.pc.Loaded? || r.pc.HasGen? || r.pc.Opened? || r.pc.Served? ==> r.pc.gen in r.lived)
  }

  predicate AllTimely(s: State) {
    forall r :: r in s.readers ==> Timely(s.gen, s.readers[r])
  }

  // ---- after a mutation the cached base file is out of play ----

  predicate Pending(pc: RPc) { pc.NoRow? || pc.HasGen? || pc.Opened? }

  /** Whatever a read of this handle has counted, and it cannot count more than there is. */
  predicate Counts(h: Handle, pc: RPc) { pc.Counted? || Pending(pc) ==> pc.count <= h.count }

  /** Nothing is cached in the handle, and what a read under way has found would be rejected. */
  predicate Clean(s: State, id: nat)
    requires id in s.handles
  {
    && s.handles[id].file == None
    && forall r :: r in s.readers && s.readers[r].h == id && Pending(s.readers[r].pc) ==> s.readers[r].pc.count < s.handles[id].count
  }

  predicate Covered(s: State, path: Path, rest: set<nat>) {
    path in s.rows && forall h :: h in s.table && h in s.handles && s.handles[h].path == path ==> h in rest || Clean(s, h)
  }

  predicate WriterClaim(s: State, c: Writer) {
    match c
    case Start(path, round, kept) => kept ==> path in s.rows && round == Second
    case Closing(path, round, rest, _, kept) => kept ==> Covered(s, path, rest) && round == Second
    case Returned(path, kept) => kept ==> Covered(s, path, {})
    case _ => true
  }

  predicate LateClaim(s: State, r: Reader) {
    && r.h in s.handles && Counts(s.handles[r.h], r.pc)
    && (r.late ==> !r.pc.Served?)
    && (r.late && !Over(r.pc) ==> s.handles[r.h].path in s.rows && Clean(s, r.h))
  }

  predicate Claims(s: State) {
    && s.table <= s.handles.Keys
    && (forall w :: w in s.writers ==> WriterClaim(s, s.writers[w]))
    && (forall r :: r in s.readers ==> LateClaim(s, s.readers[r]))
  }

  // ---- preservation: files ----

  /** The files of one party may change hands and be closed; every other party's stay as they are. */
  predicate OnlyOf(f: Files, g: Files, a: Owner, b: Owner) {
    f.fds.Keys <= g.fds.Keys && forall fd :: fd in f.fds && f.fds[fd] != g.fds[fd] ==> f.fds[fd].owner == a || f.fds[fd].owner == b
  }

  lemma ReadKeepsFiles(f: Files, h: Handle, id: nat, pc: RPc, gen: int, row: bool, e: Event)
    requires Reads(e) && CanRead(f, pc, e) && HandleOk(f.fds, id, h) && ReaderHolds(f.fds, e.r, pc)
    ensures var (g, h', pc') := ReadStep(f, h, id, pc, gen, row, e);
      OnlyOf(f, g, ByHandle(id), ByReader(e.r)) && g.fault == f.fault && HandleOk(g.fds, id, h') && ReaderHolds(g.fds, e.r, pc')
  {
  }

  /** What belongs to nobody but two parties' counterparts stays theirs. */
  lemma OthersKeepFds(s: State, g: Files, id: nat, r: nat)
    requires FdsOk(s) && OnlyOf(s.files, g, ByHandle(id), ByReader(r))
    ensures forall h :: h in s.handles && h != id ==> HandleOk(g.fds, h, s.handles[h])
    ensures forall q :: q in s.readers && q != r ==> ReaderHolds(g.fds, q, s.readers[q].pc)
    ensures forall w :: w in s.writers ==> WriterHolds(g.fds, w, s.writers[w])
  {
    forall h | h in s.handles && h != id ensures HandleOk(g.fds, h, s.handles[h]) { assert HandleOk(s.files.fds, h, s.handles[h]); }
    forall q | q in s.readers && q != r ensures ReaderHolds(g.fds, q, s.readers[q].pc) {
      assert ReaderHolds(s.files.fds, q, s.readers[q].pc);
    }
    forall w | w in s.writers ensures WriterHolds(g.fds, w, s.writers[w]) { assert WriterHolds(s.files.fds, w, s.writers[w]); }
  }

  lemma ReadKeepsFds(s: State, e: Event)
    requires FdsOk(s) && Enabled(s, e) && Reads(e)
    ensures FdsOk(Apply(s, e))
  {
    var read := s.readers[e.r];
    var h := s.handles[read.h];
    assert HandleOk(s.files.fds, read.h, h) && ReaderHolds(s.files.fds, e.r, read.pc);
    ReadKeepsFiles(s.files, h, read.h, read.pc, s.gen, h.path in s.rows, e);
    OthersKeepFds(s, ReadStep(s.files, h, read.h, read.pc, s.gen, h.path in s.rows, e).0, read.h, e.r);
  }

  lemma TakeOutKeepsFds(s: State, w: nat, h: nat)
    requires FdsOk(s) && Enabled(s, TakeOut(w, h))
    ensures FdsOk(Apply(s, TakeOut(w, h)))
  {
    assert HandleOk(s.files.fds, h, s.handles[h]);
  }

  lemma CloseTakenKeepsFds(s: State, w: nat)
    requires FdsOk(s) && Enabled(s, CloseTaken(w))
    ensures FdsOk(Apply(s, CloseTaken(w)))
  {
    assert WriterHolds(s.files.fds, w, s.writers[w]);
  }

  lemma QuietKeepsFds(s: State, e: Event)
    requires FdsOk(s) && Enabled(s, e) && !Reads(e) && !e.TakeOut? && !e.CloseTaken?
    ensures FdsOk(Apply(s, e))
  {
  }

  lemma StepKeepsFds(s: State, e: Event)
    requires FdsOk(s) && Enabled(s, e)
    ensures FdsOk(Apply(s, e))
  {
    if Reads(e) {
      ReadKeepsFds(s, e);
    } else {
      match e
      case TakeOut(w, h) => TakeOutKeepsFds(s, w, h);
      case CloseTaken(w) => CloseTakenKeepsFds(s, w);
      case _ => QuietKeepsFds(s, e);
    }
  }

  // ---- preservation: generations ----

  lemma ReadIsTimely(f: Files, h: Handle, id: nat, read: Reader, gen: int, row: bool, e: Event)
    requires Reads(e) && CanRead(f, read.pc, e) && Timely(gen, read)
    ensures Timely(gen, read.(pc := ReadStep(f, h, id, read.pc, gen, row, e).2))
  {
  }

  lemma OthersStayTimely(s: State, e: Event, r: nat)
    requires Enabled(s, e) && !Reads(e) && r in s.readers && Timely(s.gen, s.readers[r])
    ensures r in Apply(s, e).readers && Timely(Apply(s, e).gen, Apply(s, e).readers[r])
  {
  }

  lemma StepKeepsTimely(s: State, e: Event)
    requires AllTimely(s) && Enabled(s, e)
    ensures AllTimely(Apply(s, e))
  {
    if Reads(e) {
      var read := s.readers[e.r];
      assert Timely(s.gen, read);
      ReadIsTimely(s.files, s.handles[read.h], read.h, read, s.gen, s.handles[read.h].path in s.rows, e);
    } else {
      var t := Apply(s, e);
      forall r | r in t.readers ensures Timely(t.gen, t.readers[r]) {
        if r in s.readers { OthersStayTimely(s, e, r); }
      }
    }
  }

  // ---- preservation: the claims of mutations ----

  /** One read's step: its handle counts on, and a clean handle with a row is neither filled nor served from. */
  lemma ReadStaysClean(f: Files, h: Handle, id: nat, pc: RPc, gen: int, row: bool, e: Event)
    requires Reads(e) && CanRead(f, pc, e) && Counts(h, pc)
    ensures var (_, h', pc') := ReadStep(f, h, id, pc, gen, row, e);
      && h'.path == h.path && h'.count >= h.count && Counts(h', pc')
      && (h.file == None && row && (Pending(pc) ==> pc.count < h.count) ==>
        h' == h && !pc'.Served? && (Pending(pc') ==> pc'.count < h.count))
  {
  }

  lemma ReadKeepsClean(s: State, e: Event, id: nat)
    requires Claims(s) && Enabled(s, e) && Reads(e) && id in s.handles && Clean(s, id) && s.handles[id].path in s.rows
    ensures Clean(Apply(s, e), id)
  {
    var read := s.readers[e.r];
    var h := s.handles[read.h];
    assert LateClaim(s, read);
    ReadStaysClean(s.files, h, read.h, read.pc, s.gen, h.path in s.rows, e);
  }

  /** Handles keep their paths and count on, and those that were clean stay so: then every claim of a
      writer, and of a read that did not move, stands. */
  lemma ClaimsStand(s: State, t: State, r: nat)
    requires Claims(s) && t.table == s.table && t.rows == s.rows && t.writers == s.writers
    requires t.handles.Keys == s.handles.Keys && t.readers.Keys == s.readers.Keys
    requires forall id :: id in s.handles ==> t.handles[id].path == s.handles[id].path && t.handles[id].count >= s.handles[id].count
    requires forall id :: id in s.handles && s.handles[id].path in s.rows && Clean(s, id) ==> Clean(t, id)
    requires forall q :: q in s.readers && q != r ==> t.readers[q] == s.readers[q]
    ensures forall w :: w in t.writers ==> WriterClaim(t, t.writers[w])
    ensures forall q :: q in t.readers && q != r ==> LateClaim(t, t.readers[q])
  {
    forall w | w in t.writers ensures WriterClaim(t, t.writers[w]) { assert WriterClaim(s, s.writers[w]); }
    forall q | q in t.readers && q != r ensures LateClaim(t, t.readers[q]) { assert LateClaim(s, s.readers[q]); }
  }

  lemma ReaderKeepsClaim(s: State, e: Event)
    requires Claims(s) && Enabled(s, e) && Reads(e)
    requires var id := s.readers[e.r].h; s.handles[id].path in s.rows && Clean(s, id) ==> Clean(Apply(s, e), id)
    ensures LateClaim(Apply(s, e), Apply(s, e).readers[e.r])
  {
    var read := s.readers[e.r];
    var h := s.handles[read.h];
    assert LateClaim(s, read);
    ReadStaysClean(s.files, h, read.h, read.pc, s.gen, h.path in s.rows, e);
  }

  /** What the step of a read leaves alone. */
  lemma ReadFrame(s: State, e: Event)
    requires Claims(s) && Enabled(s, e) && Reads(e)
    ensures var t := Apply(s, e);
      && t.table == s.table && t.rows == s.rows && t.writers == s.writers
      && t.handles.Keys == s.handles.Keys && t.readers.Keys == s.readers.Keys
      && (forall id :: id in s.handles ==> t.handles[id].path == s.handles[id].path && t.handles[id].count >= s.handles[id].count)
      && forall q :: q in s.readers && q != e.r ==> t.readers[q] == s.readers[q]
  {
    var read := s.readers[e.r];
    var h := s.handles[read.h];
    assert LateClaim(s, read);
    ReadStaysClean(s.files, h, read.h, read.pc, s.gen, h.path in s.rows, e);
  }

  lemma ReadKeepsClaims(s: State, e: Event)
    requires Claims(s) && Enabled(s, e) && Reads(e)
    ensures Claims(Apply(s, e))
  {
    ReadFrame(s, e);
    forall id | id in s.handles && s.handles[id].path in s.rows && Clean(s, id) ensures Clean(Apply(s, e), id) { ReadKeepsClean(s, e, id); }
    assert s.readers[e.r].h in s.handles by { assert LateClaim(s, s.readers[e.r]); }
    ReaderKeepsClaim(s, e);
    ClaimsStand(s, Apply(s, e), e.r);
  }

  lemma TakeOutKeepsClaims(s: State, w: nat, h: nat)
    requires Claims(s) && Enabled(s, TakeOut(w, h))
    ensures Claims(Apply(s, TakeOut(w, h)))
  {
    var t := Apply(s, TakeOut(w, h));
    assert forall r :: r in s.readers ==> LateClaim(s, s.readers[r]);
    assert Clean(t, h);
    assert forall id :: id in s.handles && Clean(s, id) ==> Clean(t, id);
    forall v | v in t.writers ensures WriterClaim(t, t.writers[v]) { assert WriterClaim(s, s.writers[v]); }
    forall r | r in t.readers ensures LateClaim(t, t.readers[r]) { assert LateClaim(s, s.readers[r]); }
  }

  lemma OpenKeepsClaims(s: State, h: nat, path: Path)
    requires Claims(s) && h !in s.handles
    ensures Claims(Apply(s, OpenHandle(h, path)))
  {
    var t := Apply(s, OpenHandle(h, path));
    assert forall r :: r in s.readers ==> LateClaim(s, s.readers[r]);
    assert Clean(t, h);
    assert forall id :: id in s.handles && Clean(s, id) ==> Clean(t, id);
    forall v | v in t.writers ensures WriterClaim(t, t.writers[v]) { assert WriterClaim(s, s.writers[v]); }
    forall r | r in t.readers ensures LateClaim(t, t.readers[r]) { assert LateClaim(s, s.readers[r]); }
  }

  lemma BeginKeepsClaims(s: State, r: nat, h: nat)
    requires Claims(s) && Enabled(s, Begin(r, h))
    ensures Claims(Apply(s, Begin(r, h)))
  {
    var t := Apply(s, Begin(r, h));
    assert forall id :: id in s.handles && Clean(s, id) ==> Clean(t, id);
    if SomeReturned(s.writers, s.handles[h].path) {
      var w :| w in s.writers && s.writers[w] == Returned(s.handles[h].path, true);
      assert WriterClaim(s, s.writers[w]);
    }
    forall v | v in t.writers ensures WriterClaim(t, t.writers[v]) { assert WriterClaim(s, s.writers[v]); }
    forall q | q in t.readers ensures LateClaim(t, t.readers[q]) {
      if q != r { assert LateClaim(s, s.readers[q]); }
    }
  }

  lemma DropKeepsClaims(s: State, path: Path)
    requires Claims(s)
    ensures Claims(Dropped(s, path))
  {
    var t := Dropped(s, path);
    assert forall id :: id in s.handles && Clean(s, id) ==> Clean(t, id);
    forall v | v in t.writers ensures WriterClaim(t, t.writers[v]) { assert WriterClaim(s, s.writers[v]); }
    forall r | r in t.readers ensures LateClaim(t, t.readers[r]) { assert LateClaim(s, s.readers[r]); }
  }

  lemma SwapKeepsClaims(s: State, gen: int)
    requires Claims(s)
    ensures Claims(Swapped(s, gen))
  {
    var t := Swapped(s, gen);
    assert forall id :: id in s.handles && Clean(s, id) ==> Clean(t, id);
    forall v | v in t.writers ensures WriterClaim(t, t.writers[v]) { assert WriterClaim(s, s.writers[v]); }
    forall r | r in t.readers ensures LateClaim(t, t.readers[r]) { assert LateClaim(s, s.readers[r]); }
  }

  /** Rows come, handles leave the table, and one writer moves on; handles and reads stay. */
  lemma WriterMoves(s: State, t: State, w: nat)
    requires Claims(s) && t.handles == s.handles && t.readers == s.readers
    requires s.rows <= t.rows && t.table <= s.table
    requires forall v :: v in t.writers && v != w ==> v in s.writers && t.writers[v] == s.writers[v]
    requires w in t.writers ==> WriterClaim(t, t.writers[w])
    ensures Claims(t)
  {
    assert forall id :: id in s.handles && Clean(s, id) ==> Clean(t, id);
    forall v | v in t.writers ensures WriterClaim(t, t.writers[v]) {
      if v != w { assert WriterClaim(s, s.writers[v]); }
    }
    forall r | r in t.readers ensures LateClaim(t, t.readers[r]) { assert LateClaim(s, s.readers[r]); }
  }

  predicate WriterSteps(e: Event) {
    e.BeginWrite? || e.BeginRelease? || e.Snapshot? || e.CloseTaken? || e.RoundDone? || e.Mutate?
  }

  /** The writer that moves claims no more than it may. */
  lemma WriterEarnsClaim(s: State, e: Event)
    requires Claims(s) && Enabled(s, e) && WriterSteps(e) && e.w in Apply(s, e).writers
    ensures WriterClaim(Apply(s, e), Apply(s, e).writers[e.w])
  {
    if e.w in s.writers { assert WriterClaim(s, s.writers[e.w]); }
    SameHandlesClean(s, Apply(s, e));
  }

  lemma SameHandlesClean(s: State, t: State)
    requires t.handles == s.handles && t.readers == s.readers
    ensures forall id :: id in s.handles && Clean(s, id) ==> Clean(t, id)
  {
  }

  lemma WriterFrame(s: State, e: Event)
    requires Claims(s) && Enabled(s, e) && WriterSteps(e)
    ensures var t := Apply(s, e);
      && t.handles == s.handles && t.readers == s.readers && s.rows <= t.rows && t.table <= s.table
      && forall v :: v in t.writers && v != e.w ==> v in s.writers && t.writers[v] == s.writers[v]
  {
  }

  lemma WriterKeepsClaims(s: State, e: Event)
    requires Claims(s) && Enabled(s, e) && WriterSteps(e)
    ensures Claims(Apply(s, e))
  {
    WriterFrame(s, e);
    if e.w in Apply(s, e).writers { WriterEarnsClaim(s, e); }
    WriterMoves(s, Apply(s, e), e.w);
  }

  lemma StepKeepsClaims(s: State, e: Event)
    requires Claims(s) && Enabled(s, e)
    ensures Claims(Apply(s, e))
  {
    if Reads(e) {
      ReadKeepsClaims(s, e);
    } else if WriterSteps(e) {
      WriterKeepsClaims(s, e);
    } else {
      match e
      case Swap(gen) => SwapKeepsClaims(s, gen);
      case RowMade(path) => WriterMoves(s, s.(rows := s.rows + {path}), 0);
      case RowDropped(path) => DropKeepsClaims(s, path);
      case OpenHandle(h, path) => OpenKeepsClaims(s, h, path);
      case Begin(r, h) => BeginKeepsClaims(s, r, h);
      case TakeOut(w, h) => TakeOutKeepsClaims(s, w, h);
    }
  }

  // ---- runs ----

  predicate Safe(s: State) { FdsOk(s) && AllTimely(s) && Claims(s) }

  lemma {:induction false} RunSafe(s: State, es: seq<Event>)
    requires Safe(s) && Runs(s, es)
    ensures Safe(After(s, es))
    decreases |es|
  {
    if es != [] {
      StepKeepsFds(s, es[0]);
      StepKeepsTimely(s, es[0]);
      StepKeepsClaims(s, es[0]);
      RunSafe(Apply(s, es[0]), es[1..]);
    }
  }

  /** In every interleaving: no file is read after its close or closed twice; whatever a read serves
      from a cached file is the content of a generation current at some moment of that read; and no
      read begun after a successful mutation returned is served from the cache while the row stays. */
  lemma CacheIsCoherent(gen: int, rows: set<Path>, es: seq<Event>, r: nat)
    requires Runs(Init(gen, rows), es)
    ensures var s := After(Init(gen, rows), es);
      && !s.files.fault
      && (r in s.readers && s.readers[r].pc.Served? ==> s.readers[r].pc.gen in s.readers[r].lived && !s.readers[r].late)
  {
    RunSafe(Init(gen, rows), es);
    var s := After(Init(gen, rows), es);
    if r in s.readers { assert Timely(s.gen, s.readers[r]) && LateClaim(s, s.readers[r]); }
  }

  /** The file a read serves from was opened for the generation it names, whoever opened it. */
  lemma ServedFromItsGeneration(s: State, r: nat)
    requires Safe(s) && Enabled(s, TryFast(r)) && Apply(s, TryFast(r)).readers[r].pc.Served?
    ensures var h := s.handles[s.readers[r].h];
      h.file.Some? && h.file.value in s.files.fds && s.files.fds[h.file.value].gen == Apply(s, TryFast(r)).readers[r].pc.gen
      && s.files.fds[h.file.value].owner == ByHandle(s.readers[r].h)
  {
    assert HandleOk(s.files.fds, s.readers[r].h, s.handles[s.readers[r].h]);
  }
}
