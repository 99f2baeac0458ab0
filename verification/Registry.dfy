/** registry.Store: the repos table, its upsert, and the compare-and-set on prepare state. */
module Registry {
  import opened Text

  datatype PrepareState = Sync | Preparing | Ready | Failed

  /** The ten fields that decide whether two registrations ask for the same preparation. */
  datatype Prep = Prep(
    branch: string, remoteURL: string, prepared: bool, fetchRef: string, gitDir: string,
    metaDB: string, overlayDir: string, overlayDB: string, blobCache: string, mountPath: string)

  datatype RepoConfig = RepoConfig(id: string, name: string, mountRoot: string, enabled: bool, prep: Prep, state: PrepareState, error: string)

  datatype Result = Done | ErrRepoChanged | ErrUniqueName | ErrNotFound

  predicate SamePrepareConfig(a: Prep, b: Prep) {
    && a.branch == b.branch
    && a.remoteURL == b.remoteURL
    && a.prepared == b.prepared
    && a.fetchRef == b.fetchRef
    && a.gitDir == b.gitDir
    && a.metaDB == b.metaDB
    && a.overlayDir == b.overlayDir
    && a.overlayDB == b.overlayDB
    && a.blobCache == b.blobCache
    && a.mountPath == b.mountPath
  }

  /** The fieldwise comparison forgets no field. */
  lemma SamePrepareConfigIsEquality(a: Prep, b: Prep)
    ensures SamePrepareConfig(a, b) <==> a == b
  {
  }

  // ---- filling in what a registration leaves blank ----

  datatype Roots = Roots(root: string, mountRoot: string)

  function Default(value: string, otherwise: string): string { if value == "" then otherwise else value }

  /** fillPaths; roots come cleaned. */
  function Fill(d: Roots, c: RepoConfig): Prep {
    var mountRoot := Default(c.mountRoot, Default(d.mountRoot, d.root + "/mnt"));
    var overlayDir := Default(c.prep.overlayDir, d.root + "/overlays/" + c.id);
    c.prep.(
      mountPath := Default(c.prep.mountPath, mountRoot + "/" + c.name),
      gitDir := Default(c.prep.gitDir, d.root + "/repos/" + c.id + "/git"),
      overlayDir := overlayDir,
      blobCache := Default(c.prep.blobCache, d.root + "/cache/blobs/" + c.id),
      metaDB := Default(c.prep.metaDB, d.root + "/meta/" + c.id + ".sqlite"),
      overlayDB := Default(c.prep.overlayDB, overlayDir + "/meta.sqlite"))
  }

  /** The branch is fetched unless the registration names a ref; TrimSpaceBlank says that this is the test. */
  function WithRef(p: Prep): Prep {
    if Blank(p.fetchRef) then p.(fetchRef := p.branch) else p
  }

  /** What a worker prepares for: paths filled in, and a ref to fetch. */
  function Normal(d: Roots, c: RepoConfig): Prep { WithRef(Fill(d, c)) }

  /** The UPDATE's WHERE clause. */
  predicate Matches(rows: map<string, RepoConfig>, id: string, prep: Prep) {
    id in rows && rows[id].prep == prep
  }

  function Updated(rows: map<string, RepoConfig>, id: string, prep: Prep, state: PrepareState, error: string): map<string, RepoConfig> {
    if Matches(rows, id, prep) then rows[id := rows[id].(state := state, error := error)] else rows
  }

  /** prepareConfigStillCurrent, given the row that GetRepo reads. */
  predicate StillCurrent(d: Roots, row: RepoConfig, prep: Prep) { Normal(d, row) == prep }

  /** Nothing is left blank that a registration fills in. */
  predicate InFull(p: Prep) {
    && (!Blank(p.fetchRef) || p.fetchRef == p.branch)
    && p.mountPath != "" && p.gitDir != "" && p.metaDB != "" && p.overlayDir != "" && p.overlayDB != "" && p.blobCache != ""
  }

  /** Filling in fills in, and changes a row exactly when something is left blank: under whatever roots. */
  lemma NormalIsFull(d: Roots, c: RepoConfig)
    ensures InFull(Normal(d, c)) && (Normal(d, c) == c.prep <==> InFull(c.prep))
  {
  }

  /** A worker that finds its config current can persist a state exactly when the row leaves nothing
      blank: the check fills in what it reads, the compare-and-set does not. */
  lemma PersistsIffStoredNormal(d: Roots, rows: map<string, RepoConfig>, id: string, prep: Prep)
    requires id in rows && StillCurrent(d, rows[id], prep)
    ensures Matches(rows, id, prep) <==> InFull(rows[id].prep)
  {
    NormalIsFull(d, rows[id]);
  }

  /** For a row with a blank ref a worker would pass every check and could persist neither "ready" nor
      "failed"; RowsInFull below says that no worker is started for one. */
  lemma BlankRefNeverPersists(d: Roots, rows: map<string, RepoConfig>, id: string, state: PrepareState, error: string)
    requires id in rows && Blank(rows[id].prep.fetchRef) && !Blank(rows[id].prep.branch)
    ensures var prep := Normal(d, rows[id]);
      StillCurrent(d, rows[id], prep) && !Matches(rows, id, prep) && Updated(rows, id, prep, state, error) == rows
  {
    PersistsIffStoredNormal(d, rows, id, Normal(d, rows[id]));
  }

  // ---- the table ----

  predicate NamesUnique(rows: map<string, RepoConfig>) {
    && (forall id :: id in rows ==> rows[id].id == id)
    && (forall i, j :: i in rows && j in rows && rows[i].name == rows[j].name ==> i == j)
  }

  class Store {
    var rows: map<string, RepoConfig>

    constructor ()
      ensures rows == map[] && NamesUnique(rows)
    {
      rows := map[];
    }

    /** INSERT ... ON CONFLICT(repo_id) DO UPDATE; a second id under one name is refused. */
    method AddRepo(cfg: RepoConfig) returns (r: Result)
      requires NamesUnique(rows)
      modifies this
      ensures NamesUnique(rows)
      ensures r == ErrUniqueName <==> exists id :: id in old(rows) && id != cfg.id && old(rows)[id].name == cfg.name
      ensures r != ErrUniqueName ==> r == Done
      ensures rows == if r == Done then old(rows)[cfg.id := cfg] else old(rows)
    {
      if exists id :: id in rows && id != cfg.id && rows[id].name == cfg.name { return ErrUniqueName; }
      rows := rows[cfg.id := cfg];
      return Done;
    }

    /** The compare-and-set: the state changes exactly when id and all ten fields still match. */
    method UpdatePrepareStateForConfig(cfg: RepoConfig, state: PrepareState, error: string) returns (r: Result)
      requires NamesUnique(rows)
      modifies this
      ensures NamesUnique(rows) && rows == Updated(old(rows), cfg.id, cfg.prep, state, error)
      ensures r == (if Matches(old(rows), cfg.id, cfg.prep) then Done else ErrRepoChanged)
    {
      var same := false;
      if cfg.id in rows {
        SamePrepareConfigIsEquality(rows[cfg.id].prep, cfg.prep);
        same := SamePrepareConfig(rows[cfg.id].prep, cfg.prep);
      }
      if !same { return ErrRepoChanged; }
      rows := rows[cfg.id := rows[cfg.id].(state := state, error := error)];
      return Done;
    }

    method RemoveRepo(name: string)
      requires NamesUnique(rows)
      modifies this
      ensures NamesUnique(rows)
      ensures forall id :: id in rows <==> id in old(rows) && old(rows)[id].name != name
      ensures forall id :: id in rows ==> rows[id] == old(rows)[id]
    {
      rows := map id | id in rows && rows[id].name != name :: rows[id];
    }
  }

  // ---- what any run of the program stores ----

  /** AddRepoWithOptions, up to the insert: id, mount root, paths and ref are filled in; an asynchronous
      registration is marked "preparing", a plain one may lose a remote with credentials in it. */
  function Registered(d: Roots, c: RepoConfig, repoID: string, async: bool, hidesRemote: bool): RepoConfig {
    var named := if c.id == "" then c.(id := repoID) else c;
    var prep := Normal(d, named);
    named.(mountRoot := Default(c.mountRoot, Default(d.mountRoot, d.root + "/mnt")),
           prep := if hidesRemote then prep.(remoteURL := "") else prep,
           state := if async then Preparing else c.state,
           error := if async then "" else c.error)
  }

  /** isAsyncRepo: workers prepare these rows and no others. */
  predicate IsAsync(c: RepoConfig) { c.prep.prepared || !c.state.Sync? }

  /** What the processes that share the table do to it.  A row that some process has read may be written
      back, or used for a compare-and-set, at any later time. */
  datatype Change =
    | Register(d: Roots, c: RepoConfig, repoID: string, async: bool, hidesRemote: bool)
    | Reads(id: string)
    | WriteBack(c: RepoConfig)
    | Prepare(c: RepoConfig)
    | Worked(d: Roots, c: RepoConfig, state: PrepareState, error: string)
    | Removed(name: string)

  /** The table, and every row ever read from it. */
  datatype Shared = Shared(rows: map<string, RepoConfig>, held: set<RepoConfig>)

  predicate Possible(s: Shared, e: Change) {
    match e
    case Register(_, c, _, async, _) => c.prep.prepared ==> async
    case Reads(id) => id in s.rows
    case WriteBack(c) => c in s.held
    case Prepare(c) => c in s.held && IsAsync(c)
    case Worked(_, c, _, _) => c in s.held && IsAsync(c)
    case Removed(_) => true
  }

  function Changed(s: Shared, e: Change): Shared {
    match e
    case Register(d, c, repoID, async, hidesRemote) =>
      var row := Registered(d, c, repoID, async, hidesRemote);
      s.(rows := s.rows[row.id := row])
    case Reads(id) => if id in s.rows then s.(held := s.held + {s.rows[id]}) else s
    case WriteBack(c) => s.(rows := s.rows[c.id := c])
    case Prepare(c) => s.(rows := Updated(s.rows, c.id, WithRef(c.prep), Preparing, ""))
    case Worked(d, c, state, error) => s.(rows := Updated(s.rows, c.id, Normal(d, c), state, error))
    case Removed(name) => s.(rows := map id | id in s.rows && s.rows[id].name != name :: s.rows[id])
  }

  predicate ChangesPossible(s: Shared, es: seq<Change>)
    decreases |es|
  {
    es == [] || (Possible(s, es[0]) && ChangesPossible(Changed(s, es[0]), es[1..]))
  }

  function ChangedBy(s: Shared, es: seq<Change>): Shared
    decreases |es|
  {
    if es == [] then s else ChangedBy(Changed(s, es[0]), es[1..])
  }

  predicate FullIfAsync(c: RepoConfig) { IsAsync(c) ==> InFull(c.prep) }

  predicate RowsFull(s: Shared) {
    (forall id :: id in s.rows ==> FullIfAsync(s.rows[id])) && (forall c :: c in s.held ==> FullIfAsync(c))
  }

  /** A compare-and-set for a config that leaves nothing blank can only hit such a row. */
  lemma UpdateKeepsFull(rows: map<string, RepoConfig>, id: string, prep: Prep, state: PrepareState, error: string)
    requires InFull(prep) && forall i :: i in rows ==> FullIfAsync(rows[i])
    ensures forall i :: i in Updated(rows, id, prep, state, error) ==> FullIfAsync(Updated(rows, id, prep, state, error)[i])
  {
  }

  lemma ChangeKeepsFull(s: Shared, e: Change)
    requires RowsFull(s) && Possible(s, e)
    ensures RowsFull(Changed(s, e))
  {
    match e
    case Register(d, c, repoID, _, _) => NormalIsFull(d, if c.id == "" then c.(id := repoID) else c);
    case Prepare(c) => UpdateKeepsFull(s.rows, c.id, WithRef(c.prep), Preparing, "");
    case Worked(d, c, state, error) =>
      NormalIsFull(d, c);
      UpdateKeepsFull(s.rows, c.id, Normal(d, c), state, error);
    case _ =>
  }

  /** From a table without asynchronous rows, as a fresh or a migrated one is, no run of the program
      stores an asynchronous row with a blank: its worker can persist its state whenever it is current. */
  lemma {:induction false} RowsInFull(s: Shared, es: seq<Change>)
    requires RowsFull(s) && ChangesPossible(s, es)
    ensures RowsFull(ChangedBy(s, es))
    decreases |es|
  {
    if es != [] {
      ChangeKeepsFull(s, es[0]);
      RowsInFull(Changed(s, es[0]), es[1..]);
    }
  }

  lemma CurrentWorkersPersist(rows: map<string, RepoConfig>, es: seq<Change>, d: Roots, id: string, prep: Prep)
    requires (forall i :: i in rows ==> !IsAsync(rows[i])) && ChangesPossible(Shared(rows, {}), es)
    requires var now := ChangedBy(Shared(rows, {}), es).rows; id in now && IsAsync(now[id]) && StillCurrent(d, now[id], prep)
    ensures Matches(ChangedBy(Shared(rows, {}), es).rows, id, prep)
  {
    var s := Shared(rows, {});
    RowsInFull(s, es);
    var now := ChangedBy(s, es).rows;
    assert FullIfAsync(now[id]);
    PersistsIffStoredNormal(d, now, id, prep);
  }
}
