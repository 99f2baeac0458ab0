/** What every run of the prepare protocol keeps: a gate opens only for a runtime whose configuration
    was persisted ready and which resolves to a generation published in its own store. */
module PrepareSafety {
  import opened Wrappers
  import opened Registry
  import opened Prepare
  import G = ReadyGates

  predicate Live(w: Worker) { !w.pc.Gone? }

  /** The worker has not yet given up or finished its run to the gate. */
  predicate Towards(pc: Pc) { !pc.Leaving? && !pc.Gone? }

  function GenOf(pc: Pc): Option<nat> {
    match pc
    case Published(gen) => Some(gen)
    case Checked(gen) => Some(gen)
    case Persisted(gen) => Some(gen)
    case Picked(gen, _) => Some(gen)
    case Confirmed(gen, _) => Some(gen)
    case GenSet(gen, _) => Some(gen)
    case Approved(gen, _) => Some(gen)
    case _ => None
  }

  predicate PastPersist(pc: Pc) { pc.Persisted? || pc.Picked? || pc.Confirmed? || pc.GenSet? || pc.Approved? }

  // ---- registrations and runtimes ----

  predicate Registered(s: State, id: string, t: nat) { id in s.preparing && s.preparing[id] == t }

  predicate RunningAs(s: State, id: string, rt: nat) { id in s.running && s.running[id] == rt }

  /** Exactly the runtimes that are not stopped are registered, each under its repository. */
  predicate RuntimesOk(running: map<string, nat>, rts: map<nat, Runtime>) {
    && (forall id :: id in running ==> running[id] in rts && rts[running[id]].id == id && !rts[running[id]].stopped)
    && (forall rt :: rt in rts && !rts[rt].stopped ==> rts[rt].id in running && running[rts[rt].id] == rt)
  }

  predicate TokensOk(preparing: map<string, nat>, workers: map<nat, Worker>, seqNo: nat) {
    && (forall id :: id in preparing ==> preparing[id] in workers && workers[preparing[id]].id == id && Live(workers[preparing[id]]))
    && (forall t :: t in workers ==> t <= seqNo)
  }

  /** A live worker whose runtime still runs is the registered one. */
  predicate HomeOk(preparing: map<string, nat>, rts: map<nat, Runtime>, t: nat, w: Worker) {
    && w.rt in rts && rts[w.rt].id == w.id
    && (Live(w) && !rts[w.rt].stopped ==> w.id in preparing && preparing[w.id] == t)
    && (Towards(w.pc) ==> !rts[w.rt].active)
  }

  /** No two live workers run under one runtime. */
  predicate OwnRuntimes(workers: map<nat, Worker>) {
    forall t, u :: t in workers && u in workers && t != u && Live(workers[t]) && Live(workers[u]) ==> workers[t].rt != workers[u].rt
  }

  predicate Unworked(workers: map<nat, Worker>, rt: nat) {
    forall t :: t in workers && Live(workers[t]) ==> workers[t].rt != rt
  }

  /** The runtime that the loop is about to start a worker for is running, idle and nobody's. */
  predicate Awaiting(s: State, id: string) {
    id in s.running && s.running[id] in s.rts && !s.rts[s.running[id]].active && Unworked(s.workers, s.running[id])
  }

  /** While a mount is being replaced, its repository has no runtime. */
  predicate SyncOk(s: State) {
    && (s.sync.Unmounted? ==> s.sync.row.id !in s.running)
    && ( s.sync.Mounted? || s.sync.Starting? ==> Awaiting(s, s.sync.row.id))
  }

  ghost predicate Shape(s: State) {
    && RuntimesOk(s.running, s.rts)
    && TokensOk(s.preparing, s.workers, s.seqNo)
    && (forall t :: t in s.workers ==> HomeOk(s.preparing, s.rts, t, s.workers[t]))
    && OwnRuntimes(s.workers)
    && SyncOk(s)
  }

  // ---- what a worker has earned ----

  /** What a worker claims at each point of its run, about itself and about its runtime. */
  predicate Earned(rts: map<nat, Runtime>, published: map<string, set<nat>>, persisted: set<(string, Prep)>, w: Worker) {
    && w.rt in rts
    && (GenOf(w.pc).Some? ==> GenOf(w.pc).value in Pub(published, rts[w.rt].cfg.metaDB))
    && (PastPersist(w.pc) ==> (w.id, w.cfg) in persisted)
    && (w.pc.Picked? ==> w.pc.rt in rts && rts[w.pc.rt].cfg == w.cfg && (!rts[w.rt].stopped ==> w.pc.rt == w.rt))
    && (w.pc.Confirmed? || w.pc.GenSet? || w.pc.Approved? ==> w.pc.rt == w.rt && rts[w.rt].cfg == w.cfg)
    && (w.pc.GenSet? || w.pc.Approved? ==> rts[w.rt].gen == w.pc.gen)
  }

  predicate GateOk(published: map<string, set<nat>>, persisted: set<(string, Prep)>, r: Runtime) {
    && (r.gate.Some? ==> G.Valid(r.gate.value))
    && (r.gate.Some? && r.gate.value.ready ==> (r.id, r.cfg) in persisted && r.gen in Pub(published, r.cfg.metaDB))
  }

  predicate Truth(s: State) {
    && (forall t :: t in s.workers ==> Earned(s.rts, s.published, s.persisted, s.workers[t]))
    && (forall rt :: rt in s.rts ==> GateOk(s.published, s.persisted, s.rts[rt]))
  }

  // ---- preservation: shape ----

  /** The runtime is the same but for its gate, its generation and, when `on`, its active flag. */
  predicate SameButGate(r: Runtime, q: Runtime, on: bool) {
    q.id == r.id && q.cfg == r.cfg && q.stopped == r.stopped && (q.active == r.active || on)
  }

  predicate SameRuntimes(rts: map<nat, Runtime>, next: map<nat, Runtime>, marked: Option<nat>) {
    next.Keys == rts.Keys && forall rt :: rt in rts ==> SameButGate(rts[rt], next[rt], marked == Some(rt))
  }

  lemma WorkKeepsRuntimes(d: Roots, s: State, w: Worker, e: Event)
    requires Works(e) && CanWork(d, s, w, e)
    ensures SameRuntimes(s.rts, NextRts(d, s, w, e), if e.Mark? then Some(w.pc.rt) else None)
  {
  }

  /** The same worker at another point of its run, not further from its end. */
  predicate SameWorker(w: Worker, v: Worker) {
    v.id == w.id && v.rt == w.rt && (Live(v) ==> Live(w)) && (Towards(v.pc) ==> Towards(w.pc))
  }

  lemma WorkersMove(preparing: map<string, nat>, seqNo: nat, workers: map<nat, Worker>, t: nat, v: Worker)
    requires TokensOk(preparing, workers, seqNo) && OwnRuntimes(workers)
    requires t in workers && SameWorker(workers[t], v) && Live(v)
    ensures TokensOk(preparing, workers[t := v], seqNo) && OwnRuntimes(workers[t := v])
  {
  }

  lemma RuntimesStayOk(running: map<string, nat>, rts: map<nat, Runtime>, next: map<nat, Runtime>, marked: Option<nat>)
    requires RuntimesOk(running, rts) && SameRuntimes(rts, next, marked)
    ensures RuntimesOk(running, next)
  {
  }

  lemma HomesMove(s: State, t: nat, v: Worker, rts: map<nat, Runtime>, marked: Option<nat>)
    requires Shape(s) && t in s.workers && SameWorker(s.workers[t], v) && SameRuntimes(s.rts, rts, marked)
    requires marked.Some? ==> marked.value == v.rt && Live(v) && !Towards(v.pc)
    ensures forall u :: u in s.workers ==> HomeOk(s.preparing, rts, u, if u == t then v else s.workers[u])
    ensures SyncOk(s.(workers := s.workers[t := v], rts := rts))
  {
    forall u | u in s.workers ensures HomeOk(s.preparing, rts, u, if u == t then v else s.workers[u]) {
      assert HomeOk(s.preparing, s.rts, u, s.workers[u]);
    }
  }

  lemma MoveKeepsShape(s: State, t: nat, pc: Pc, rts: map<nat, Runtime>, marked: Option<nat>)
    requires Shape(s) && t in s.workers && Live(s.workers[t]) && !pc.Gone?
    requires SameRuntimes(s.rts, rts, marked)
    requires Towards(pc) ==> Towards(s.workers[t].pc)
    requires marked.Some? ==> marked.value == s.workers[t].rt && !Towards(pc)
    ensures Shape(s.(workers := s.workers[t := s.workers[t].(pc := pc)], rts := rts))
  {
    var v := s.workers[t].(pc := pc);
    WorkersMove(s.preparing, s.seqNo, s.workers, t, v);
    RuntimesStayOk(s.running, s.rts, rts, marked);
    HomesMove(s, t, v, rts, marked);
  }

  lemma LeaveKeepsShape(s: State, t: nat)
    requires Shape(s) && t in s.workers && Live(s.workers[t])
    ensures var w := s.workers[t];
      Shape(s.(workers := s.workers[t := w.(pc := Gone)],
               preparing := if w.id in s.preparing && s.preparing[w.id] == t then s.preparing - {w.id} else s.preparing))
  {
    var w := s.workers[t];
    var workers := s.workers[t := w.(pc := Gone)];
    var preparing := if w.id in s.preparing && s.preparing[w.id] == t then s.preparing - {w.id} else s.preparing;
    LeaveKeepsHomes(s, t, preparing);
    LeaveKeepsTokens(s.preparing, s.workers, s.seqNo, t, preparing);
  }

  lemma LeaveKeepsHomes(s: State, t: nat, preparing: map<string, nat>)
    requires Shape(s) && t in s.workers && Live(s.workers[t])
    requires preparing == if Registered(s, s.workers[t].id, t) then s.preparing - {s.workers[t].id} else s.preparing
    ensures var workers := s.workers[t := s.workers[t].(pc := Gone)];
      forall u :: u in workers ==> HomeOk(preparing, s.rts, u, workers[u])
  {
    var workers := s.workers[t := s.workers[t].(pc := Gone)];
    assert HomeOk(s.preparing, s.rts, t, s.workers[t]);
    forall u | u in workers ensures HomeOk(preparing, s.rts, u, workers[u]) {
      assert HomeOk(s.preparing, s.rts, u, s.workers[u]);
    }
  }

  lemma LeaveKeepsTokens(preparing: map<string, nat>, workers: map<nat, Worker>, seqNo: nat, t: nat, next: map<string, nat>)
    requires TokensOk(preparing, workers, seqNo) && OwnRuntimes(workers) && t in workers
    requires next == if workers[t].id in preparing && preparing[workers[t].id] == t then preparing - {workers[t].id} else preparing
    ensures TokensOk(next, workers[t := workers[t].(pc := Gone)], seqNo) && OwnRuntimes(workers[t := workers[t].(pc := Gone)])
  {
  }

  /** Shape looks at nothing but registrations, runtimes, workers and the loop. */
  lemma ShapeOnly(s: State, t: State)
    requires Shape(s) && t.preparing == s.preparing && t.seqNo == s.seqNo && t.running == s.running
    requires t.rts == s.rts && t.workers == s.workers && t.sync == s.sync
    ensures Shape(t)
  {
  }

  lemma WorkMoves(d: Roots, s: State, w: Worker, e: Event)
    requires Works(e) && CanWork(d, s, w, e) && Earned(s.rts, s.published, s.persisted, w)
    ensures SameWorker(w, w.(pc := NextPc(d, s, w, e))) && Live(w) && (NextPc(d, s, w, e).Gone? <==> e.Leave?)
    ensures e.Mark? ==> w.pc.rt == w.rt && !Towards(NextPc(d, s, w, e))
  {
  }

  /** What a worker's step does to the parts that Shape looks at. */
  lemma WorkStepParts(d: Roots, s: State, e: Event)
    requires Enabled(d, s, e) && Works(e)
    ensures var t, w := WorkStep(d, s, e), s.workers[e.t];
      && t.seqNo == s.seqNo && t.running == s.running && t.sync == s.sync && t.rts == NextRts(d, s, w, e)
      && t.workers == s.workers[e.t := w.(pc := NextPc(d, s, w, e))]
      && t.preparing == if e.Leave? && Registered(s, w.id, e.t) then s.preparing - {w.id} else s.preparing
  {
  }

  lemma LeaveStepKeepsShape(d: Roots, s: State, t: nat)
    requires Shape(s) && Enabled(d, s, Leave(t))
    ensures Shape(WorkStep(d, s, Leave(t)))
  {
    var w := s.workers[t];
    WorkStepParts(d, s, Leave(t));
    LeaveKeepsShape(s, t);
    var next := s.(workers := s.workers[t := w.(pc := Gone)],
                   preparing := if w.id in s.preparing && s.preparing[w.id] == t then s.preparing - {w.id} else s.preparing);
    assert next.rts == NextRts(d, s, w, Leave(t));
    ShapeOnly(next, WorkStep(d, s, Leave(t)));
  }

  lemma StayStepKeepsShape(d: Roots, s: State, e: Event)
    requires Shape(s) && Enabled(d, s, e) && Works(e) && !e.Leave? && Earned(s.rts, s.published, s.persisted, s.workers[e.t])
    ensures Shape(WorkStep(d, s, e))
  {
    var w := s.workers[e.t];
    WorkStepParts(d, s, e);
    WorkKeepsRuntimes(d, s, w, e);
    WorkMoves(d, s, w, e);
    MovedKeepsShape(s, WorkStep(d, s, e), e.t, NextPc(d, s, w, e), if e.Mark? then Some(w.pc.rt) else None);
  }

  lemma MovedKeepsShape(s: State, t: State, k: nat, pc: Pc, marked: Option<nat>)
    requires Shape(s) && k in s.workers && Live(s.workers[k]) && !pc.Gone? && SameRuntimes(s.rts, t.rts, marked)
    requires Towards(pc) ==> Towards(s.workers[k].pc)
    requires marked.Some? ==> marked.value == s.workers[k].rt && !Towards(pc)
    requires t.seqNo == s.seqNo && t.running == s.running && t.sync == s.sync && t.preparing == s.preparing
    requires t.workers == s.workers[k := s.workers[k].(pc := pc)]
    ensures Shape(t)
  {
    MoveKeepsShape(s, k, pc, t.rts, marked);
    ShapeOnly(s.(workers := s.workers[k := s.workers[k].(pc := pc)], rts := t.rts), t);
  }

  lemma WorkKeepsShape(d: Roots, s: State, e: Event)
    requires Shape(s) && Truth(s) && Enabled(d, s, e) && Works(e)
    ensures Shape(WorkStep(d, s, e))
  {
    if e.Leave? {
      LeaveStepKeepsShape(d, s, e.t);
    } else {
      StayStepKeepsShape(d, s, e);
    }
  }

  lemma NewRuntimeKeepsShape(s: State, rt: nat, r: Runtime)
    requires Shape(s) && rt !in s.rts && r.id !in s.running && !r.stopped && s.sync.Free?
    ensures Shape(WithRuntime(s, rt, r)) && Unworked(WithRuntime(s, rt, r).workers, rt)
  {
    var t := WithRuntime(s, rt, r);
    forall u | u in s.workers ensures HomeOk(t.preparing, t.rts, u, t.workers[u]) && s.workers[u].rt != rt {
      assert HomeOk(s.preparing, s.rts, u, s.workers[u]);
    }
  }

  lemma StopKeepsShape(s: State, id: string)
    requires Shape(s) && id in s.running && s.running[id] in s.rts && s.sync.Free?
    ensures Shape(Stopped(s, id)) && id !in Stopped(s, id).running
  {
    var t := Stopped(s, id);
    forall u | u in s.workers ensures HomeOk(t.preparing, t.rts, u, t.workers[u]) {
      assert HomeOk(s.preparing, s.rts, u, s.workers[u]);
    }
  }

  /** The loop moves on to a point that expects an idle runtime, or to one that expects nothing. */
  lemma SyncMoves(s: State, sync: Sync)
    requires Shape(s) && (sync.Mounted? || sync.Starting? ==> Awaiting(s, sync.row.id)) && (sync.Unmounted? ==> sync.row.id !in s.running)
    ensures Shape(s.(sync := sync))
  {
  }

  lemma SupersedeKeepsShape(s: State)
    requires Shape(s) && s.sync.Mounted?
    ensures Shape(s.(preparing := s.preparing - {s.sync.row.id}, sync := Starting(s.sync.row)))
  {
    var preparing := s.preparing - {s.sync.row.id};
    forall u | u in s.workers ensures HomeOk(preparing, s.rts, u, s.workers[u]) {
      assert HomeOk(s.preparing, s.rts, u, s.workers[u]);
    }
  }

  lemma NewWorkerHome(s: State, id: string, t: nat, v: Worker)
    requires Shape(s) && Awaiting(s, id) && id !in s.preparing && t == s.seqNo + 1
    requires v.id == id && v.rt == s.running[id] && Live(v)
    ensures HomeOk(s.preparing[id := t], s.rts, t, v)
    ensures forall u :: u in s.workers ==> u != t && HomeOk(s.preparing[id := t], s.rts, u, s.workers[u])
    ensures TokensOk(s.preparing[id := t], s.workers[t := v], t)
  {
    forall u | u in s.workers ensures HomeOk(s.preparing[id := t], s.rts, u, s.workers[u]) && u != t {
      assert HomeOk(s.preparing, s.rts, u, s.workers[u]);
    }
  }

  lemma NewWorkerOwn(workers: map<nat, Worker>, t: nat, v: Worker)
    requires OwnRuntimes(workers) && Unworked(workers, v.rt)
    ensures OwnRuntimes(workers[t := v])
  {
  }

  /** A worker is registered for the runtime that waits for one, under a new token. */
  lemma NewWorkerKeepsShape(s: State, v: Worker)
    requires Shape(s) && s.sync.Starting? && s.sync.row.id !in s.preparing
    requires v.id == s.sync.row.id && v.rt == s.running[v.id] && Live(v)
    ensures Shape(Started(s, v))
  {
    NewWorkerHome(s, v.id, s.seqNo + 1, v);
    NewWorkerOwn(s.workers, s.seqNo + 1, v);
  }

  lemma StartKeepsShape(d: Roots, s: State)
    requires Shape(s) && EnabledSync(d, s, StartWorker)
    ensures Shape(ApplySync(d, s, StartWorker))
  {
    var row := s.sync.row;
    if row.id in s.preparing {
      SyncMoves(s, Free);
    } else {
      NewWorkerKeepsShape(s, Worker(row.id, row.name, s.running[row.id], Normal(d, row), Working));
    }
  }

  /** A runtime of a repository with no registered worker is nobody's. */
  lemma UnregisteredIsUnworked(s: State, id: string)
    requires Shape(s) && id in s.running && id !in s.preparing
    ensures s.running[id] in s.rts && Unworked(s.workers, s.running[id])
  {
    forall u | u in s.workers && Live(s.workers[u]) ensures s.workers[u].rt != s.running[id] {
      assert HomeOk(s.preparing, s.rts, u, s.workers[u]);
    }
  }

  lemma RuntimesMove(s: State, rts: map<nat, Runtime>)
    requires Shape(s) && SameRuntimes(s.rts, rts, None)
    ensures Shape(s.(rts := rts))
  {
    forall u | u in s.workers ensures HomeOk(s.preparing, rts, u, s.workers[u]) {
      assert HomeOk(s.preparing, s.rts, u, s.workers[u]);
    }
  }

  lemma MountKeepsShape(d: Roots, s: State, rt: nat, row: RepoConfig, gen: nat, sync: Sync)
    requires Shape(s) && rt !in s.rts && row.id !in s.running && !sync.Unmounted?
    requires sync.Mounted? || sync.Starting? ==> sync.row == row
    ensures Shape(MountedAs(d, s, rt, row, gen).(sync := sync))
  {
    var u := s.(sync := Free);
    SyncMoves(s, Free);
    NewRuntimeKeepsShape(u, rt, Runtime(row.id, Fill(d, row), gen, Some(NewGate(row)), false, false));
    SyncMoves(MountedAs(d, u, rt, row, gen), sync);
  }

  lemma ResetKeepsShape(d: Roots, s: State, row: RepoConfig)
    requires Shape(s) && EnabledSync(d, s, ResetRunning(row))
    ensures Shape(ApplySync(d, s, ResetRunning(row)))
  {
    UnregisteredIsUnworked(s, row.id);
    var rts := ApplySync(d, s, ResetRunning(row)).rts;
    RuntimesMove(s, rts);
    SyncMoves(s.(rts := rts), Starting(row));
  }

  /** Events of other processes and of HEAD watchers. */
  predicate FromOutside(e: Event) { e.Upsert? || e.Remove? || e.HeadPublish? || e.HeadSet? }

  lemma OutsideKeepsShape(d: Roots, s: State, e: Event)
    requires Shape(s) && EnabledSync(d, s, e) && FromOutside(e)
    ensures Shape(ApplySync(d, s, e))
  {
    if e.HeadSet? {
      RuntimesMove(s, s.rts[e.rt := s.rts[e.rt].(gen := e.gen)]);
    } else {
      ShapeOnly(s, ApplySync(d, s, e));
    }
  }

  lemma SyncKeepsShape(d: Roots, s: State, e: Event)
    requires Shape(s) && EnabledSync(d, s, e)
    ensures Shape(ApplySync(d, s, e))
  {
    if FromOutside(e) {
      OutsideKeepsShape(d, s, e);
    } else {
      LoopKeepsShape(d, s, e);
    }
  }

  lemma LoopKeepsShape(d: Roots, s: State, e: Event)
    requires Shape(s) && EnabledSync(d, s, e) && !FromOutside(e)
    ensures Shape(ApplySync(d, s, e))
  {
    match e
    case MountAsync(rt, row, gen) => MountKeepsShape(d, s, rt, row, gen, if row.state.Preparing? then Starting(row) else Free);
    case MountPlain(rt, row, gen) => NewRuntimeKeepsShape(s, rt, Runtime(row.id, Fill(d, row), gen, None, true, false));
    case Stop(id) => StopKeepsShape(s, id);
    case Unmount(row) => StopKeepsShape(s, row.id); SyncMoves(Stopped(s, row.id), Unmounted(row));
    case Remount(rt, gen) => MountKeepsShape(d, s, rt, s.sync.row, gen, Mounted(s.sync.row));
    case RemountFails => SyncMoves(s, Free);
    case Supersede => SupersedeKeepsShape(s);
    case StartWorker => StartKeepsShape(d, s);
    case ResetRunning(row) => ResetKeepsShape(d, s, row);
  }

  // ---- preservation: truth ----

  predicate PublishedGrows(p: map<string, set<nat>>, q: map<string, set<nat>>) {
    forall db :: db in p ==> p[db] <= Pub(q, db)
  }

  lemma AddGrows(p: map<string, set<nat>>, db: string, gen: nat)
    ensures PublishedGrows(p, Add(p, db, gen)) && gen in Pub(Add(p, db, gen), db)
  {
  }

  /** What a runtime may change under a worker that keeps its claims: its gate, its active flag, being
      stopped, and its generation unless the worker has just set it. */
  predicate Tolerable(r: Runtime, q: Runtime, w: Worker) {
    q.cfg == r.cfg && (r.stopped ==> q.stopped) && (q.gen == r.gen || !(w.pc.GenSet? || w.pc.Approved?))
  }

  lemma EarnedStays(rts: map<nat, Runtime>, next: map<nat, Runtime>, p: map<string, set<nat>>, q: map<string, set<nat>>,
                    m: set<(string, Prep)>, n: set<(string, Prep)>, w: Worker)
    requires Earned(rts, p, m, w) && PublishedGrows(p, q) && m <= n && rts.Keys <= next.Keys
    requires Tolerable(rts[w.rt], next[w.rt], w)
    requires forall rt :: rt in rts ==> next[rt].cfg == rts[rt].cfg
    ensures Earned(next, q, n, w)
  {
  }

  /** A cancelled context stops a worker at its next call, so one that still calls runs under the
      registered runtime. */
  lemma UncancelledIsHome(s: State, t: nat)
    requires Shape(s) && t in s.workers && !Cancelled(s, s.workers[t])
    ensures RunningAs(s, s.workers[t].id, s.workers[t].rt)
  {
    assert HomeOk(s.preparing, s.rts, t, s.workers[t]);
  }

  lemma PublishEarns(d: Roots, s: State, t: nat, gen: nat)
    requires Shape(s) && Truth(s) && Enabled(d, s, Publish(t, gen))
    ensures var n := WorkStep(d, s, Publish(t, gen)); Earned(s.rts, n.published, n.persisted, n.workers[t])
  {
    assert Earned(s.rts, s.published, s.persisted, s.workers[t]);
    UncancelledIsHome(s, t);
    AddGrows(s.published, s.rts[s.workers[t].rt].cfg.metaDB, gen);
  }

  lemma PickEarns(d: Roots, s: State, t: nat)
    requires Shape(s) && Truth(s) && Enabled(d, s, Pick(t))
    ensures var n := WorkStep(d, s, Pick(t)); Earned(s.rts, n.published, n.persisted, n.workers[t])
  {
    assert Earned(s.rts, s.published, s.persisted, s.workers[t]);
    if !Cancelled(s, s.workers[t]) { UncancelledIsHome(s, t); }
  }

  /** The steps of a run to the gate, and those that leave it. */
  lemma OtherwiseEarns(d: Roots, s: State, e: Event)
    requires Truth(s) && Enabled(d, s, e) && Works(e) && !e.Publish? && !e.Pick? && !e.SetGen?
    ensures var n := WorkStep(d, s, e); Earned(s.rts, n.published, n.persisted, n.workers[e.t])
  {
    var w := s.workers[e.t];
    assert Earned(s.rts, s.published, s.persisted, w);
    if e.Persist? {
      PersistEarns(d, s, e.t);
    } else {
      PcEarns(d, s, w, e);
    }
  }

  lemma PersistEarns(d: Roots, s: State, t: nat)
    requires Truth(s) && Enabled(d, s, Persist(t))
    ensures var n := WorkStep(d, s, Persist(t)); Earned(s.rts, n.published, n.persisted, n.workers[t])
  {
    assert Earned(s.rts, s.published, s.persisted, s.workers[t]);
  }

  lemma PcEarns(d: Roots, s: State, w: Worker, e: Event)
    requires Works(e) && CanWork(d, s, w, e) && !e.Publish? && !e.Pick? && !e.SetGen? && !e.Persist?
    requires Earned(s.rts, s.published, s.persisted, w)
    ensures Earned(s.rts, s.published, s.persisted, w.(pc := NextPc(d, s, w, e)))
  {
    var pc := NextPc(d, s, w, e);
    assert GenOf(pc).Some? ==> GenOf(pc) == GenOf(w.pc);
    assert PastPersist(pc) ==> PastPersist(w.pc);
  }

  lemma SetGenEarns(d: Roots, s: State, t: nat)
    requires Truth(s) && Enabled(d, s, SetGen(t))
    ensures var n := WorkStep(d, s, SetGen(t)); Earned(n.rts, n.published, n.persisted, n.workers[t])
  {
    assert Earned(s.rts, s.published, s.persisted, s.workers[t]);
  }

  lemma WorkerEarns(d: Roots, s: State, e: Event)
    requires Shape(s) && Truth(s) && Enabled(d, s, e) && Works(e)
    ensures var t := WorkStep(d, s, e); Earned(t.rts, t.published, t.persisted, t.workers[e.t])
  {
    var t, w := WorkStep(d, s, e), s.workers[e.t];
    if e.SetGen? {
      SetGenEarns(d, s, e.t);
    } else {
      if e.Publish? { PublishEarns(d, s, e.t, e.gen); }
      else if e.Pick? { PickEarns(d, s, e.t); }
      else { OtherwiseEarns(d, s, e); }
      WorkKeepsRuntimes(d, s, w, e);
      WorkSetsNoGen(d, s, w, e);
      EarnedStays(s.rts, t.rts, t.published, t.published, t.persisted, t.persisted, t.workers[e.t]);
    }
  }

  lemma WorkSetsNoGen(d: Roots, s: State, w: Worker, e: Event)
    requires Works(e) && CanWork(d, s, w, e) && !e.SetGen?
    ensures forall rt :: rt in s.rts ==> rt in NextRts(d, s, w, e) && NextRts(d, s, w, e)[rt].gen == s.rts[rt].gen
  {
  }

  lemma WorkGrows(d: Roots, s: State, e: Event)
    requires Enabled(d, s, e) && Works(e)
    ensures PublishedGrows(s.published, WorkStep(d, s, e).published) && s.persisted <= WorkStep(d, s, e).persisted
  {
    var w := s.workers[e.t];
    if e.Publish? { AddGrows(s.published, s.rts[s.running[w.id]].cfg.metaDB, e.gen); }
  }

  /** The step sets no generation but its own runtime's. */
  lemma WorkSetsOwnGen(d: Roots, s: State, w: Worker, e: Event)
    requires Works(e) && CanWork(d, s, w, e) && Earned(s.rts, s.published, s.persisted, w)
    ensures forall rt :: rt in s.rts && rt != w.rt ==> NextRts(d, s, w, e)[rt].gen == s.rts[rt].gen
  {
  }

  lemma OthersKeepEarned(d: Roots, s: State, e: Event, u: nat)
    requires Shape(s) && Truth(s) && Enabled(d, s, e) && Works(e) && u in s.workers && u != e.t
    ensures var t := WorkStep(d, s, e); Earned(t.rts, t.published, t.persisted, s.workers[u])
  {
    var t, w, v := WorkStep(d, s, e), s.workers[e.t], s.workers[u];
    assert Earned(s.rts, s.published, s.persisted, v) && Earned(s.rts, s.published, s.persisted, w);
    WorkGrows(d, s, e);
    WorkKeepsRuntimes(d, s, w, e);
    WorkSetsOwnGen(d, s, w, e);
    WorkMoves(d, s, w, e);
    EarnedStays(s.rts, t.rts, s.published, t.published, s.persisted, t.persisted, v);
  }

  lemma GateStays(r: Runtime, p: map<string, set<nat>>, q: map<string, set<nat>>, m: set<(string, Prep)>, n: set<(string, Prep)>)
    requires GateOk(p, m, r) && PublishedGrows(p, q) && m <= n
    ensures GateOk(q, n, r)
  {
  }

  lemma GateMoves(r: Runtime, p: map<string, set<nat>>, m: set<(string, Prep)>, gen: nat, error: string)
    requires GateOk(p, m, r)
    ensures GateOk(p, m, GateFailed(r, error)) && GateOk(p, m, GateFailed(r, error).(stopped := true))
    ensures gen in Pub(p, r.cfg.metaDB) ==> GateOk(p, m, r.(gen := gen))
    ensures (r.id, r.cfg) in m && r.gen in Pub(p, r.cfg.metaDB) ==> GateOk(p, m, Marked(r))
  {
    if r.gate.Some? { G.CallsKeepGate(r.gate.value, Some(error)); }
  }

  /** Each runtime after the step still has an honest gate, before what the step earns is added. */
  lemma WorkKeepsGate(d: Roots, s: State, w: Worker, e: Event, rt: nat)
    requires Works(e) && CanWork(d, s, w, e) && rt in s.rts && GateOk(s.published, s.persisted, s.rts[rt])
    requires Earned(s.rts, s.published, s.persisted, w) && s.rts[w.rt].id == w.id
    ensures rt in NextRts(d, s, w, e) && GateOk(s.published, s.persisted, NextRts(d, s, w, e)[rt])
  {
    GateMoves(s.rts[rt], s.published, s.persisted, if e.SetGen? then w.pc.gen else 0, if e.FailGate? then e.error else "");
  }

  lemma WorkKeepsGates(d: Roots, s: State, e: Event, rt: nat)
    requires Shape(s) && Truth(s) && Enabled(d, s, e) && Works(e) && rt in s.rts
    ensures var t := WorkStep(d, s, e); rt in t.rts && GateOk(t.published, t.persisted, t.rts[rt])
  {
    var t, w := WorkStep(d, s, e), s.workers[e.t];
    assert HomeOk(s.preparing, s.rts, e.t, w) && Earned(s.rts, s.published, s.persisted, w);
    WorkKeepsGate(d, s, w, e, rt);
    WorkGrows(d, s, e);
    GateStays(t.rts[rt], s.published, t.published, s.persisted, t.persisted);
  }

  lemma WorkKeepsTruth(d: Roots, s: State, e: Event)
    requires Shape(s) && Truth(s) && Enabled(d, s, e) && Works(e)
    ensures Truth(WorkStep(d, s, e))
  {
    var t := WorkStep(d, s, e);
    forall u | u in t.workers ensures Earned(t.rts, t.published, t.persisted, t.workers[u]) {
      if u == e.t { WorkerEarns(d, s, e); } else { OthersKeepEarned(d, s, e, u); }
    }
    assert t.rts.Keys == s.rts.Keys by { WorkKeepsRuntimes(d, s, s.workers[e.t], e); }
    forall rt | rt in t.rts ensures GateOk(t.published, t.persisted, t.rts[rt]) { WorkKeepsGates(d, s, e, rt); }
  }

  /** A runtime comes, or one changes within what every live worker tolerates and keeps its gate honest. */
  lemma RuntimesKeepTruth(s: State, next: map<nat, Runtime>, published: map<string, set<nat>>)
    requires Truth(s) && PublishedGrows(s.published, published) && s.rts.Keys <= next.Keys
    requires forall rt :: rt in s.rts ==> next[rt].cfg == s.rts[rt].cfg
    requires forall u :: u in s.workers && s.workers[u].rt in s.rts ==> Tolerable(s.rts[s.workers[u].rt], next[s.workers[u].rt], s.workers[u])
    requires forall rt :: rt in next ==> GateOk(s.published, s.persisted, next[rt])
    ensures Truth(s.(rts := next, published := published))
  {
    forall u | u in s.workers ensures Earned(next, published, s.persisted, s.workers[u]) {
      assert Earned(s.rts, s.published, s.persisted, s.workers[u]);
      EarnedStays(s.rts, next, s.published, published, s.persisted, s.persisted, s.workers[u]);
    }
    forall rt | rt in next ensures GateOk(published, s.persisted, next[rt]) {
      GateStays(next[rt], s.published, published, s.persisted, s.persisted);
    }
  }

  lemma TruthOnly(s: State, t: State)
    requires Truth(s) && t.workers == s.workers && t.rts == s.rts && t.published == s.published && t.persisted == s.persisted
    ensures Truth(t)
  {
  }

  lemma NewGateOk(row: RepoConfig)
    ensures G.Valid(NewGate(row)) && !NewGate(row).ready
  {
    G.CallsKeepGate(G.NewGate(false), Some(row.error));
  }

  lemma MountKeepsTruth(d: Roots, s: State, t: State, rt: nat, r: Runtime)
    requires Truth(s) && rt !in s.rts && GateOk(s.published, s.persisted, r)
    requires t.workers == s.workers && t.published == s.published && t.persisted == s.persisted && t.rts == s.rts[rt := r]
    ensures Truth(t)
  {
    RuntimesKeepTruth(s, t.rts, s.published);
    TruthOnly(s.(rts := t.rts, published := s.published), t);
  }

  lemma ChangeKeepsTruth(s: State, t: State, rt: nat, r: Runtime)
    requires Truth(s) && rt in s.rts && GateOk(s.published, s.persisted, r) && r.cfg == s.rts[rt].cfg && (s.rts[rt].stopped ==> r.stopped)
    requires r.gen == s.rts[rt].gen || forall u :: u in s.workers && s.workers[u].rt == rt ==> !s.workers[u].pc.GenSet? && !s.workers[u].pc.Approved?
    requires t.workers == s.workers && t.published == s.published && t.persisted == s.persisted && t.rts == s.rts[rt := r]
    ensures Truth(t)
  {
    RuntimesKeepTruth(s, t.rts, s.published);
    TruthOnly(s.(rts := t.rts, published := s.published), t);
  }

  lemma NewWorkerKeepsTruth(s: State, v: Worker)
    requires Truth(s) && v.pc.Working? && v.rt in s.rts
    ensures Truth(Started(s, v))
  {
    var t := Started(s, v);
    forall u | u in t.workers ensures Earned(t.rts, t.published, t.persisted, t.workers[u]) {
      if u != t.seqNo { assert Earned(s.rts, s.published, s.persisted, s.workers[u]); }
    }
  }

  lemma StartKeepsTruth(d: Roots, s: State)
    requires Shape(s) && Truth(s) && EnabledSync(d, s, StartWorker)
    ensures Truth(ApplySync(d, s, StartWorker))
  {
    var row := s.sync.row;
    if row.id in s.preparing {
      TruthOnly(s, s.(sync := Free));
    } else {
      NewWorkerKeepsTruth(s, Worker(row.id, row.name, s.running[row.id], Normal(d, row), Working));
    }
  }

  lemma HeadKeepsTruth(d: Roots, s: State, rt: nat, gen: nat)
    requires Shape(s) && Truth(s) && EnabledSync(d, s, HeadSet(rt, gen))
    ensures Truth(ApplySync(d, s, HeadSet(rt, gen)))
  {
    GateMoves(s.rts[rt], s.published, s.persisted, gen, "");
    forall u | u in s.workers && s.workers[u].rt == rt ensures !s.workers[u].pc.GenSet? && !s.workers[u].pc.Approved? {
      assert HomeOk(s.preparing, s.rts, u, s.workers[u]);
    }
    ChangeKeepsTruth(s, ApplySync(d, s, HeadSet(rt, gen)), rt, s.rts[rt].(gen := gen));
  }

  lemma StopKeepsTruth(s: State, id: string, t: State)
    requires Truth(s) && id in s.running && s.running[id] in s.rts
    requires t.workers == s.workers && t.published == s.published && t.persisted == s.persisted && t.rts == Stopped(s, id).rts
    ensures Truth(t)
  {
    var rt := s.running[id];
    GateMoves(s.rts[rt], s.published, s.persisted, 0, "context canceled");
    ChangeKeepsTruth(s, t, rt, GateFailed(s.rts[rt], "context canceled").(stopped := true));
  }

  lemma ResetKeepsTruth(d: Roots, s: State, row: RepoConfig)
    requires Truth(s) && EnabledSync(d, s, ResetRunning(row))
    ensures Truth(ApplySync(d, s, ResetRunning(row)))
  {
    var rt := s.running[row.id];
    assert GateOk(s.published, s.persisted, s.rts[rt]);
    G.CallsKeepGate(s.rts[rt].gate.value, None);
    var t := ApplySync(d, s, ResetRunning(row));
    ChangeKeepsTruth(s, t, rt, t.rts[rt]);
  }

  lemma OutsideKeepsTruth(d: Roots, s: State, e: Event)
    requires Shape(s) && Truth(s) && EnabledSync(d, s, e) && FromOutside(e)
    ensures Truth(ApplySync(d, s, e))
  {
    if e.HeadSet? {
      HeadKeepsTruth(d, s, e.rt, e.gen);
    } else if e.HeadPublish? {
      AddGrows(s.published, s.rts[e.rt].cfg.metaDB, e.gen);
      RuntimesKeepTruth(s, s.rts, Add(s.published, s.rts[e.rt].cfg.metaDB, e.gen));
    } else {
      TruthOnly(s, ApplySync(d, s, e));
    }
  }

  lemma MountsKeepTruth(d: Roots, s: State, e: Event)
    requires Truth(s) && EnabledSync(d, s, e) && (e.MountAsync? || e.MountPlain? || e.Remount?)
    ensures Truth(ApplySync(d, s, e))
  {
    var t := ApplySync(d, s, e);
    if e.MountAsync? { NewGateOk(e.row); }
    if e.Remount? { NewGateOk(s.sync.row); }
    MountKeepsTruth(d, s, t, e.rt, t.rts[e.rt]);
  }

  lemma SyncKeepsTruth(d: Roots, s: State, e: Event)
    requires Shape(s) && Truth(s) && EnabledSync(d, s, e)
    ensures Truth(ApplySync(d, s, e))
  {
    if FromOutside(e) {
      OutsideKeepsTruth(d, s, e);
    } else if e.MountAsync? || e.MountPlain? || e.Remount? {
      MountsKeepTruth(d, s, e);
    } else {
      var t := ApplySync(d, s, e);
      match e
      case Stop(id) => StopKeepsTruth(s, id, t);
      case Unmount(row) => StopKeepsTruth(s, row.id, t);
      case RemountFails => TruthOnly(s, t);
      case Supersede => TruthOnly(s, t);
      case StartWorker => StartKeepsTruth(d, s);
      case ResetRunning(row) => ResetKeepsTruth(d, s, row);
    }
  }

  // ---- runs ----

  ghost predicate Safe(s: State) { Shape(s) && Truth(s) }

  lemma StepSafe(d: Roots, s: State, e: Event)
    requires Safe(s) && Enabled(d, s, e)
    ensures Safe(Apply(d, s, e))
  {
    if Works(e) {
      WorkKeepsShape(d, s, e);
      WorkKeepsTruth(d, s, e);
    } else {
      SyncKeepsShape(d, s, e);
      SyncKeepsTruth(d, s, e);
    }
  }

  lemma {:induction false} RunSafe(d: Roots, s: State, es: seq<Event>)
    requires Safe(s) && Runs(d, s, es)
    ensures Safe(After(d, s, es))
    decreases |es|
  {
    if es != [] {
      StepSafe(d, s, es[0]);
      RunSafe(d, Apply(d, s, es[0]), es[1..]);
    }
  }

  /** In every reachable state, an open gate belongs to a configuration that was persisted "ready", and
      its runtime resolves to a generation published in that configuration's own store. */
  lemma OpenGateIsEarned(d: Roots, rows: Rows, published: map<string, set<nat>>, es: seq<Event>, rt: nat)
    requires Runs(d, Init(rows, published), es)
    ensures var s := After(d, Init(rows, published), es);
      rt in s.rts && s.rts[rt].gate.Some? && s.rts[rt].gate.value.ready ==>
        (s.rts[rt].id, s.rts[rt].cfg) in s.persisted && s.rts[rt].gen in Pub(s.published, s.rts[rt].cfg.metaDB)
  {
    RunSafe(d, Init(rows, published), es);
    var s := After(d, Init(rows, published), es);
    if rt in s.rts { assert GateOk(s.published, s.persisted, s.rts[rt]); }
  }

  /** When a worker comes to MarkReady, "ready" is persisted for its own configuration, which is the
      runtime's, and the runtime resolves to the very generation the worker published. */
  lemma MarkIsEarned(d: Roots, rows: Rows, published: map<string, set<nat>>, es: seq<Event>, t: nat)
    requires Runs(d, Init(rows, published), es) && Enabled(d, After(d, Init(rows, published), es), Mark(t))
    ensures var s := After(d, Init(rows, published), es); var w := s.workers[t]; var r := s.rts[w.pc.rt];
      (w.id, w.cfg) in s.persisted && r.cfg == w.cfg && r.id == w.id && r.gen == w.pc.gen
      && w.pc.gen in Pub(s.published, w.cfg.metaDB) && w.pc.rt == w.rt
  {
    RunSafe(d, Init(rows, published), es);
    var s := After(d, Init(rows, published), es);
    assert Earned(s.rts, s.published, s.persisted, s.workers[t]) && HomeOk(s.preparing, s.rts, t, s.workers[t]);
  }

  /** A worker changes at most the prepare state and error of one row, and only while that row's ten
      fields are its own. */
  lemma WorkerChangesOwnRow(d: Roots, s: State, e: Event)
    requires Enabled(d, s, e) && Works(e)
    ensures var w := s.workers[e.t]; var t := Apply(d, s, e);
      t.rows == s.rows || (Matches(s.rows, w.id, w.cfg) && w.id in t.rows
        && t.rows == s.rows[w.id := s.rows[w.id].(state := t.rows[w.id].state, error := t.rows[w.id].error)])
  {
  }

  /** Tokens are unique, and a worker that leaves clears nobody's registration but its own. */
  lemma LeavesOnlyItself(d: Roots, s: State, t: nat)
    requires Safe(s) && Enabled(d, s, Leave(t))
    ensures forall id, u :: Registered(s, id, u) && u != t ==> Registered(Apply(d, s, Leave(t)), id, u)
    ensures forall id :: !Registered(Apply(d, s, Leave(t)), id, t)
  {
  }

  lemma TokensAreNew(d: Roots, s: State)
    requires Safe(s) && Enabled(d, s, StartWorker) && s.sync.row.id !in s.preparing
    ensures var t := Apply(d, s, StartWorker);
      t.seqNo !in s.workers && Registered(t, s.sync.row.id, t.seqNo) && forall u :: u in s.workers ==> u < t.seqNo
  {
  }
}
