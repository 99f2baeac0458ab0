/** The daemon's asynchronous prepare: one loop that mounts and remounts what the registry says, any
    number of prepare workers, HEAD watchers, and other processes that edit the registry. */
module Prepare {
  import opened Wrappers
  import opened Registry
  import G = ReadyGates

  type Rows = map<string, RepoConfig>

  /** A mounted repository.  `stopped` is its cancelled context; `gen` the generation it resolves. */
  datatype Runtime = Runtime(id: string, cfg: Prep, gen: nat, gate: Option<G.Gate>, active: bool, stopped: bool)

  datatype Pc =
    | Working
    | Published(gen: nat)
    | Checked(gen: nat)
    | Persisted(gen: nat)
    | Picked(gen: nat, rt: nat)
    | Confirmed(gen: nat, rt: nat)
    | GenSet(gen: nat, rt: nat)
    | Approved(gen: nat, rt: nat)
    | Failing
    | FailCurrent
    | FailMarked
    | Leaving
    | Gone

  /** A prepare worker, named by its token: the runtime whose context it runs under, and its config. */
  datatype Worker = Worker(id: string, name: string, rt: nat, cfg: Prep, pc: Pc)

  /** Where the one goroutine of syncRepos stands between its critical sections. */
  datatype Sync = Free | Unmounted(row: RepoConfig) | Mounted(row: RepoConfig) | Starting(row: RepoConfig)

  datatype State = State(
    rows: Rows, preparing: map<string, nat>, seqNo: nat, running: map<string, nat>, rts: map<nat, Runtime>,
    workers: map<nat, Worker>, sync: Sync,
    published: map<string, set<nat>>,        // generations per meta database
    persisted: set<(string, Prep)>)          // every "ready" ever written, with its config

  datatype Event =
    // other processes and watchers
    | Upsert(row: RepoConfig)
    | Remove(name: string)
    | HeadPublish(rt: nat, gen: nat)
    | HeadSet(rt: nat, gen: nat)
    // syncRepos
    | MountAsync(rt: nat, row: RepoConfig, gen: nat)
    | MountPlain(rt: nat, row: RepoConfig, gen: nat)
    | Stop(id: string)
    | Unmount(row: RepoConfig)
    | Remount(rt: nat, gen: nat)
    | RemountFails
    | Supersede
    | StartWorker
    | ResetRunning(row: RepoConfig)
    // a prepare worker
    | Publish(t: nat, gen: nat)
    | CheckLatest(t: nat)
    | Persist(t: nat)
    | Pick(t: nat)
    | Confirm(t: nat)
    | SetGen(t: nat)
    | Approve(t: nat)
    | Mark(t: nat)
    | Fail(t: nat)
    | FailCheck(t: nat)
    | FailPersist(t: nat, error: string)
    | FailGate(t: nat, error: string)
    | Leave(t: nat)

  function Pub(published: map<string, set<nat>>, db: string): set<nat> {
    if db in published then published[db] else {}
  }

  function Add(published: map<string, set<nat>>, db: string, gen: nat): map<string, set<nat>> {
    published[db := Pub(published, db) + {gen}]
  }

  predicate Current(d: Roots, rows: Rows, name: string, cfg: Prep) {
    exists id :: id in rows && rows[id].name == name && StillCurrent(d, rows[id], cfg)
  }

  // ---- workers ----

  predicate Works(e: Event) {
    e.Publish? || e.CheckLatest? || e.Persist? || e.Pick? || e.Confirm? || e.SetGen? || e.Approve? || e.Mark?
    || e.Fail? || e.FailCheck? || e.FailPersist? || e.FailGate? || e.Leave?
  }

  predicate Cancelled(s: State, w: Worker) { w.rt in s.rts && s.rts[w.rt].stopped }

  predicate BeforeMark(pc: Pc) {
    pc.Working? || pc.Published? || pc.Checked? || pc.Persisted? || pc.Picked? || pc.Confirmed? || pc.GenSet? || pc.Approved?
  }

  /** Calls that take the worker's context fail once its runtime is stopped. */
  predicate CanWork(d: Roots, s: State, w: Worker, e: Event)
    requires Works(e)
  {
    match e
    case Publish(_, gen) => w.pc.Working? && !Cancelled(s, w) && w.id in s.running && s.running[w.id] in s.rts
    case CheckLatest(_) => w.pc.Published? && !Cancelled(s, w)
    case Persist(_) => w.pc.Checked? && !Cancelled(s, w)
    case Pick(_) => w.pc.Persisted?
    case Confirm(_) => w.pc.Picked? && !Cancelled(s, w) && Current(d, s.rows, w.name, w.cfg)
    case SetGen(_) => w.pc.Confirmed? && w.pc.rt in s.rts
    case Approve(_) => w.pc.GenSet? && w.pc.rt in s.rts
    case Mark(_) => w.pc.Approved? && w.pc.rt in s.rts
    case Fail(_) => BeforeMark(w.pc) && !w.pc.Approved?
    case FailCheck(_) => w.pc.Failing?
    case FailPersist(_, _) => w.pc.FailCurrent?
    case FailGate(_, _) => w.pc.FailMarked?
    case Leave(_) => w.pc.Leaving?
  }

  /** Where the worker stands next. */
  function NextPc(d: Roots, s: State, w: Worker, e: Event): Pc
    requires Works(e) && CanWork(d, s, w, e)
  {
    match e
    case Publish(_, gen) => Published(gen)
    case CheckLatest(_) => if Current(d, s.rows, w.name, w.cfg) then Checked(w.pc.gen) else Leaving
    case Persist(_) => if Matches(s.rows, w.id, w.cfg) then Persisted(w.pc.gen) else Failing
    case Pick(_) =>
      if w.id !in s.running || s.running[w.id] !in s.rts then Leaving
      else if s.rts[s.running[w.id]].cfg != w.cfg then Failing
      else Picked(w.pc.gen, s.running[w.id])
    case Confirm(_) => Confirmed(w.pc.gen, w.pc.rt)
    case SetGen(_) => GenSet(w.pc.gen, w.pc.rt)
    case Approve(_) =>
      if w.id in s.running && s.running[w.id] == w.pc.rt && s.rts[w.pc.rt].cfg == w.cfg then Approved(w.pc.gen, w.pc.rt) else Failing
    case Mark(_) => Leaving
    case Fail(_) => if Cancelled(s, w) then Leaving else Failing
    case FailCheck(_) => if Current(d, s.rows, w.name, w.cfg) then FailCurrent else Leaving
    case FailPersist(_, _) => if Matches(s.rows, w.id, w.cfg) then FailMarked else Leaving
    case FailGate(_, _) => Leaving
    case Leave(_) => Gone
  }

  function NextRows(s: State, w: Worker, e: Event): Rows {
    match e
    case Persist(_) => Updated(s.rows, w.id, w.cfg, Ready, "")
    case FailPersist(_, error) => Updated(s.rows, w.id, w.cfg, PrepareState.Failed, error)
    case _ => s.rows
  }

  function Marked(r: Runtime): Runtime {
    r.(gate := if r.gate.Some? then Some(G.AfterReady(r.gate.value)) else r.gate, active := true)
  }

  function GateFailed(r: Runtime, error: string): Runtime {
    r.(gate := if r.gate.Some? then Some(G.AfterFailed(r.gate.value, Some(error))) else r.gate)
  }

  function NextRts(d: Roots, s: State, w: Worker, e: Event): map<nat, Runtime>
    requires Works(e) && CanWork(d, s, w, e)
  {
    match e
    case SetGen(_) => s.rts[w.pc.rt := s.rts[w.pc.rt].(gen := w.pc.gen)]
    case Mark(_) => s.rts[w.pc.rt := Marked(s.rts[w.pc.rt])]
    case FailGate(_, error) =>
      if w.id in s.running && s.running[w.id] in s.rts && s.rts[s.running[w.id]].cfg == w.cfg
      then s.rts[s.running[w.id] := GateFailed(s.rts[s.running[w.id]], error)] else s.rts
    case _ => s.rts
  }

  function WorkStep(d: Roots, s: State, e: Event): State
    requires Works(e) && e.t in s.workers && CanWork(d, s, s.workers[e.t], e)
  {
    var w := s.workers[e.t];
    s.(workers := s.workers[e.t := w.(pc := NextPc(d, s, w, e))],
       rows := NextRows(s, w, e),
       rts := NextRts(d, s, w, e),
       // publishSnapshot writes to the store of whatever runtime is registered
       published := if e.Publish? then Add(s.published, s.rts[s.running[w.id]].cfg.metaDB, e.gen) else s.published,
       persisted := if e.Persist? && Matches(s.rows, w.id, w.cfg) then s.persisted + {(w.id, w.cfg)} else s.persisted,
       preparing := if e.Leave? && w.id in s.preparing && s.preparing[w.id] == e.t then s.preparing - {w.id} else s.preparing)
  }

  // ---- mounts ----

  /** What a fresh snapshot store reports: nothing yet, or its current generation. */
  predicate ReadsGen(s: State, db: string, gen: nat) { gen == 0 || gen in Pub(s.published, db) }

  function NewGate(row: RepoConfig): G.Gate {
    if row.state.Failed? then G.AfterFailed(G.NewGate(false), Some(row.error)) else G.NewGate(false)
  }

  function WithRuntime(s: State, rt: nat, r: Runtime): State {
    s.(rts := s.rts[rt := r], running := s.running[r.id := rt])
  }

  /** stopRuntime and the removal from `running`. */
  function Stopped(s: State, id: string): State
    requires id in s.running && s.running[id] in s.rts
  {
    var rt := s.running[id];
    s.(running := s.running - {id}, rts := s.rts[rt := GateFailed(s.rts[rt], "context canceled").(stopped := true)])
  }

  predicate Pending(row: RepoConfig) { row.state.Preparing? || row.state.Failed? }

  function MountedAs(d: Roots, s: State, rt: nat, row: RepoConfig, gen: nat): State {
    WithRuntime(s, rt, Runtime(row.id, Fill(d, row), gen, Some(NewGate(row)), false, false))
  }

  /** A worker gets the next token and is registered under it. */
  function Started(s: State, v: Worker): State {
    var t := s.seqNo + 1;
    s.(sync := Free, seqNo := t, preparing := s.preparing[v.id := t], workers := s.workers[t := v])
  }

  predicate EnabledSync(d: Roots, s: State, e: Event) {
    match e
    case Upsert(row) => forall id :: id in s.rows && s.rows[id].name == row.name ==> id == row.id
    case Remove(_) => true
    case HeadPublish(rt, gen) => rt in s.rts && s.rts[rt].active
    case HeadSet(rt, gen) => rt in s.rts && s.rts[rt].active && gen in Pub(s.published, s.rts[rt].cfg.metaDB)
    case MountAsync(rt, row, gen) =>
      s.sync.Free? && rt !in s.rts && row.id !in s.running && Pending(row) && ReadsGen(s, Fill(d, row).metaDB, gen)
    case MountPlain(rt, row, gen) =>
      s.sync.Free? && rt !in s.rts && row.id !in s.running && !Pending(row) && ReadsGen(s, Fill(d, row).metaDB, gen)
    case Stop(id) => s.sync.Free? && id in s.running && s.running[id] in s.rts
    case Unmount(row) => s.sync.Free? && row.id in s.running && s.running[row.id] in s.rts && row.state.Preparing?
    case Remount(rt, gen) => s.sync.Unmounted? && rt !in s.rts && ReadsGen(s, Fill(d, s.sync.row).metaDB, gen)
    case RemountFails => s.sync.Unmounted?
    case Supersede => s.sync.Mounted?
    case StartWorker => s.sync.Starting? && s.sync.row.id in s.running
    case ResetRunning(row) =>
      s.sync.Free? && row.state.Preparing? && row.id in s.running && s.running[row.id] in s.rts && row.id !in s.preparing
      && !s.rts[s.running[row.id]].active && s.rts[s.running[row.id]].cfg == row.prep && s.rts[s.running[row.id]].gate.Some?
    case _ => false
  }

  function ApplySync(d: Roots, s: State, e: Event): State
    requires EnabledSync(d, s, e)
  {
    match e
    case Upsert(row) => s.(rows := s.rows[row.id := row])
    case Remove(name) => s.(rows := map id | id in s.rows && s.rows[id].name != name :: s.rows[id])
    case HeadPublish(rt, gen) => s.(published := Add(s.published, s.rts[rt].cfg.metaDB, gen))
    case HeadSet(rt, gen) => s.(rts := s.rts[rt := s.rts[rt].(gen := gen)])
    case MountAsync(rt, row, gen) =>
      MountedAs(d, s, rt, row, gen).(sync := if row.state.Preparing? then Starting(row) else Free)
    case MountPlain(rt, row, gen) => WithRuntime(s, rt, Runtime(row.id, Fill(d, row), gen, None, true, false))
    case Stop(id) => Stopped(s, id)
    case Unmount(row) => Stopped(s, row.id).(sync := Unmounted(row))
    case Remount(rt, gen) => MountedAs(d, s, rt, s.sync.row, gen).(sync := Mounted(s.sync.row))
    case RemountFails => s.(sync := Free)
    case Supersede => s.(preparing := s.preparing - {s.sync.row.id}, sync := Starting(s.sync.row))
    case StartWorker =>
      var row := s.sync.row;
      if row.id in s.preparing then s.(sync := Free)
      else Started(s, Worker(row.id, row.name, s.running[row.id], Normal(d, row), Working))
    case ResetRunning(row) =>
      var rt := s.running[row.id];
      s.(sync := Starting(row), rts := s.rts[rt := s.rts[rt].(gate := Some(G.AfterReset(s.rts[rt].gate.value)))])
  }

  predicate Enabled(d: Roots, s: State, e: Event) {
    if Works(e) then e.t in s.workers && CanWork(d, s, s.workers[e.t], e) else EnabledSync(d, s, e)
  }

  function Apply(d: Roots, s: State, e: Event): State
    requires Enabled(d, s, e)
  {
    if Works(e) then WorkStep(d, s, e) else ApplySync(d, s, e)
  }

  predicate Runs(d: Roots, s: State, es: seq<Event>)
    decreases |es|
  {
    es == [] || (Enabled(d, s, es[0]) && Runs(d, Apply(d, s, es[0]), es[1..]))
  }

  function After(d: Roots, s: State, es: seq<Event>): State
    requires Runs(d, s, es)
    decreases |es|
  {
    if es == [] then s else After(d, Apply(d, s, es[0]), es[1..])
  }

  function Init(rows: Rows, published: map<string, set<nat>>): State {
    State(rows, map[], 0, map[], map[], map[], Free, published, {})
  }
}
