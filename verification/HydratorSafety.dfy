/** What every run of the hydrator keeps: waiters are attended, each key is fetched by one worker
    at a time, and a key called verified never names wrong bytes. */
module HydratorSafety {
  import opened Inflight
  import opened TaskHeap
  import opened WaitLists
  import opened Hydrator

  // ---- scheduling ----

  predicate ServedBy(workers: map<nat, Pc>, key: Key, w: nat) {
    w in workers && Serves(workers[w]) && workers[w].key == key
  }

  /** The worker's next move looks at the queue or signals: no fetch stands before it. */
  predicate Alert(pc: Pc) { pc.Looking? || pc.Popped? || pc.Resignalling? }

  ghost predicate SomeoneAlert(workers: map<nat, Pc>) {
    exists w :: w in workers && Alert(workers[w])
  }

  /** Single flight: the active keys are exactly the keys being served, each by one worker. */
  ghost predicate SingleFlight(active: set<Key>, workers: map<nat, Pc>) {
    && (forall w :: w in workers && Serves(workers[w]) ==> workers[w].key in active)
    && (forall k :: k in active ==> exists w :: ServedBy(workers, k, w))
    && (forall k, v, w :: ServedBy(workers, k, v) && ServedBy(workers, k, w) ==> v == w)
  }

  predicate Queue(q: map<Key, Task>, active: set<Key>) {
    forall k :: k in q ==> q[k].key == k && k !in active
  }

  /** No wake-up is lost: a signal is stored, is owed, or a worker is about to look. */
  ghost predicate Awake(token: bool, pending: nat, workers: map<nat, Pc>) {
    token || pending > 0 || SomeoneAlert(workers)
  }

  /** Nobody waits for a key that is neither queued nor active. */
  predicate Attended(lists: Lists<Key>, q: map<Key, Task>, active: set<Key>) {
    forall k :: k in lists ==> k in q || k in active
  }

  /** A worker holds a taken list exactly while it tells it out. */
  ghost predicate WorkersTell(hands: map<nat, Hand>, workers: map<nat, Pc>) {
    forall w :: w in hands <==> w in workers && workers[w].Telling?
  }

  predicate NoneExited(workers: map<nat, Pc>) {
    forall w :: w in workers ==> !workers[w].Exited?
  }

  ghost predicate CrewOk(c: Crew, stopped: bool) {
    && Queue(c.queue, c.active)
    && SingleFlight(c.active, c.workers)
    && (c.queue != map[] ==> Awake(c.token, c.pending, c.workers))
    && (!stopped ==> NoneExited(c.workers))
  }

  ghost predicate Scheduled(s: State) {
    && CrewOk(s.crew, s.stopped)
    && Attended(s.wait.lists, s.crew.queue, s.crew.active)
    && WorkersTell(s.wait.hands, s.crew.workers)
    && (s.flushed ==> s.stopped)
  }

  lemma EnqueuedKeeps(q: map<Key, Task>, task: Task, active: set<Key>)
    requires Queue(q, active)
    ensures var (r, first) := Enqueued(q, task, active);
      Queue(r, active) && r.Keys >= q.Keys && (!first ==> r == q) && (task.key in active || task.key in r)
  {
  }

  lemma {:induction false} EnqueuedAllKeeps(q: map<Key, Task>, tasks: seq<Task>, active: set<Key>)
    requires Queue(q, active)
    ensures var (r, n) := EnqueuedAll(q, tasks, active);
      Queue(r, active) && r.Keys >= q.Keys && (n == 0 ==> r == q)
      && forall t :: t in tasks ==> t.key in active || t.key in r
    decreases |tasks|
  {
    if tasks != [] {
      EnqueuedKeeps(q, tasks[0], active);
      EnqueuedAllKeeps(Enqueued(q, tasks[0], active).0, tasks[1..], active);
      assert tasks == [tasks[0]] + tasks[1..];
    }
  }

  /** A worker that moves on with its key, or without ever having had one. */
  lemma MoveKeepsFlight(active: set<Key>, workers: map<nat, Pc>, w: nat, pc: Pc)
    requires SingleFlight(active, workers) && w in workers
    requires Serves(pc) == Serves(workers[w]) && (Serves(pc) ==> pc.key == workers[w].key)
    ensures SingleFlight(active, workers[w := pc])
  {
    var next := workers[w := pc];
    forall k | k in active ensures exists v :: ServedBy(next, k, v) {
      var v :| ServedBy(workers, k, v);
      assert ServedBy(next, k, v);
    }
    forall k, u, v | ServedBy(next, k, u) && ServedBy(next, k, v) ensures u == v {
      assert ServedBy(workers, k, u) && ServedBy(workers, k, v);
    }
  }

  lemma TakeUpKeepsFlight(active: set<Key>, workers: map<nat, Pc>, w: nat, pc: Pc)
    requires SingleFlight(active, workers) && w in workers && !Serves(workers[w])
    requires Serves(pc) && pc.key !in active
    ensures SingleFlight(active + {pc.key}, workers[w := pc])
  {
    var next := workers[w := pc];
    assert ServedBy(next, pc.key, w);
    forall k | k in active ensures exists v :: ServedBy(next, k, v) {
      var v :| ServedBy(workers, k, v);
      assert ServedBy(next, k, v);
    }
    forall k, u, v | ServedBy(next, k, u) && ServedBy(next, k, v) ensures u == v {
      assert u != w ==> ServedBy(workers, k, u);
      assert v != w ==> ServedBy(workers, k, v);
    }
  }

  lemma LayDownKeepsFlight(active: set<Key>, workers: map<nat, Pc>, w: nat, pc: Pc)
    requires SingleFlight(active, workers) && w in workers && Serves(workers[w]) && !Serves(pc)
    ensures SingleFlight(active - {workers[w].key}, workers[w := pc])
  {
    var key, next := workers[w].key, workers[w := pc];
    assert ServedBy(workers, key, w);
    forall v | v in next && Serves(next[v]) ensures next[v].key in active - {key} {
      assert ServedBy(workers, next[v].key, v);
    }
    forall k | k in active - {key} ensures exists v :: ServedBy(next, k, v) {
      var v :| ServedBy(workers, k, v);
      assert ServedBy(next, k, v);
    }
    forall k, u, v | ServedBy(next, k, u) && ServedBy(next, k, v) ensures u == v {
      assert ServedBy(workers, k, u) && ServedBy(workers, k, v);
    }
  }

  lemma StillAlert(workers: map<nat, Pc>, w: nat, pc: Pc)
    requires w in workers && SomeoneAlert(workers) && (Alert(pc) || !Alert(workers[w]))
    ensures SomeoneAlert(workers[w := pc])
  {
    var v :| v in workers && Alert(workers[v]);
    assert Alert(workers[w := pc][if Alert(pc) then w else v]);
  }

  /** A step of a worker that keeps what it serves and leaves the queue alone. */
  lemma MoveKeeps(c: Crew, stopped: bool, w: nat, pc: Pc, token: bool)
    requires CrewOk(c, stopped) && w in c.workers
    requires Serves(pc) == Serves(c.workers[w]) && (Serves(pc) ==> pc.key == c.workers[w].key)
    requires pc.Exited? ==> stopped
    requires c.queue == map[] || token || Alert(pc) || (c.token == token && !Alert(c.workers[w]))
    ensures CrewOk(To(c.(token := token), w, pc), stopped)
  {
    MoveKeepsFlight(c.active, c.workers, w, pc);
    if Alert(pc) {
      assert Alert(c.workers[w := pc][w]);
    } else if c.queue != map[] && !token && c.pending == 0 {
      StillAlert(c.workers, w, pc);
    }
  }

  lemma MoveSchedules(objects: Objects, s: State, e: Event)
    requires Scheduled(s) && Enabled(objects, s, e) && Moves(e)
    ensures CrewOk(MoveStep(s.crew, e), s.stopped)
    ensures WorkersTell(s.wait.hands, MoveStep(s.crew, e).workers)
  {
    var c := MoveStep(s.crew, e);
    MoveKeeps(s.crew, s.stopped, e.w, c.workers[e.w], c.token);
    assert c == To(s.crew.(token := c.token), e.w, c.workers[e.w]);
  }

  lemma QueueGrows(c: Crew, stopped: bool, q: map<Key, Task>, pending: nat)
    requires CrewOk(c, stopped) && Queue(q, c.active)
    requires pending >= c.pending && (q == c.queue || pending > 0)
    ensures CrewOk(c.(queue := q, pending := pending), stopped)
  {
  }

  lemma EnqueueSchedules(c: Crew, stopped: bool, tasks: seq<Task>)
    requires CrewOk(c, stopped)
    ensures var (q, n) := EnqueuedAll(c.queue, tasks, c.active);
      q.Keys >= c.queue.Keys && CrewOk(c.(queue := q, pending := c.pending + n), stopped)
  {
    EnqueuedAllKeeps(c.queue, tasks, c.active);
    var (q, n) := EnqueuedAll(c.queue, tasks, c.active);
    QueueGrows(c, stopped, q, c.pending + n);
  }

  lemma AskSchedules(s: State, task: Task)
    requires Scheduled(s)
    ensures CrewOk(AskStep(s, task), s.stopped)
    ensures forall k :: k in s.wait.lists || k == task.key ==> k in AskStep(s, task).queue || k in s.crew.active
  {
    if task.key !in s.crew.active && task.key !in s.wait.lists {
      EnqueuedKeeps(s.crew.queue, task, s.crew.active);
      var (q, first) := Enqueued(s.crew.queue, task, s.crew.active);
      QueueGrows(s.crew, s.stopped, q, s.crew.pending + if first then 1 else 0);
    }
  }

  lemma PopSchedules(c: Crew, stopped: bool, w: nat, key: Key)
    requires CrewOk(c, stopped) && w in c.workers && c.workers[w] == Looking && IsNext(c.queue, key)
    ensures CrewOk(PopStep(c, w, key), stopped) && key !in c.active
  {
    var d := PopStep(c, w, key);
    TakeUpKeepsFlight(c.active, c.workers, w, d.workers[w]);
    assert d.queue != map[] ==> Alert(d.workers[w]);
  }

  lemma FinishSchedules(c: Crew, stopped: bool, w: nat)
    requires CrewOk(c, stopped) && w in c.workers && c.workers[w].Finishing?
    ensures CrewOk(FinishStep(c, w), stopped)
  {
    LayDownKeepsFlight(c.active, c.workers, w, Telling);
    if SomeoneAlert(c.workers) { StillAlert(c.workers, w, Telling); }
  }

  lemma OthersSchedule(objects: Objects, s: State, e: Event)
    requires Scheduled(s) && Enabled(objects, s, e) && !Moves(e)
    ensures CrewOk(CrewStep(objects, s, e), s.stopped || e.CloseStop?)
  {
    match e
    case EnqueueBatch(tasks) => EnqueueSchedules(s.crew, s.stopped, tasks);
    case Ask(ch, task) => AskSchedules(s, task);
    case Pop(w, key) => PopSchedules(s.crew, s.stopped, w, key);
    case Finish(w) => FinishSchedules(s.crew, s.stopped, w);
    case NotifyEnd(w) => MoveKeeps(s.crew, s.stopped, w, Resignalling, s.crew.token);
    case _ =>
  }

  lemma OthersAttend(objects: Objects, s: State, e: Event)
    requires Scheduled(s) && Enabled(objects, s, e) && !Moves(e)
    ensures Attended(Apply(objects, s, e).wait.lists, Apply(objects, s, e).crew.queue, Apply(objects, s, e).crew.active)
    ensures WorkersTell(Apply(objects, s, e).wait.hands, Apply(objects, s, e).crew.workers)
  {
    if OnWait(e) {
      WaitsAttend(objects, s, e);
    } else {
      QuietAttend(objects, s, e);
    }
  }

  lemma QuietAttend(objects: Objects, s: State, e: Event)
    requires Scheduled(s) && Enabled(objects, s, e) && !Moves(e) && !OnWait(e)
    ensures Attended(s.wait.lists, CrewStep(objects, s, e).queue, CrewStep(objects, s, e).active)
    ensures WorkersTell(s.wait.hands, CrewStep(objects, s, e).workers)
  {
    match e
    case EnqueueBatch(tasks) => EnqueueSchedules(s.crew, s.stopped, tasks);
    case Pop(w, key) => PopSchedules(s.crew, s.stopped, w, key);
    case _ =>
  }

  lemma WaitsAttend(objects: Objects, s: State, e: Event)
    requires Scheduled(s) && Enabled(objects, s, e) && OnWait(e)
    ensures Attended(WaitStep(objects, s, e).lists, CrewStep(objects, s, e).queue, CrewStep(objects, s, e).active)
    ensures WorkersTell(WaitStep(objects, s, e).hands, CrewStep(objects, s, e).workers)
  {
    if e.Ask? { AskSchedules(s, e.task); }
  }

  lemma StepSchedules(objects: Objects, s: State, e: Event)
    requires Scheduled(s) && Enabled(objects, s, e)
    ensures Scheduled(Apply(objects, s, e))
  {
    if Moves(e) {
      MoveSchedules(objects, s, e);
      MovesOnly(objects, s, e);
    } else {
      OthersSchedule(objects, s, e);
      OthersAttend(objects, s, e);
    }
  }

  lemma MovesOnly(objects: Objects, s: State, e: Event)
    requires Moves(e) && Enabled(objects, s, e)
    ensures var t := Apply(objects, s, e);
      && t.crew == MoveStep(s.crew, e) && t.wait == s.wait && t.stopped == s.stopped && t.flushed == s.flushed
      && t.crew.queue == s.crew.queue && t.crew.active == s.crew.active
  {
  }

  // ---- the channels ----

  ghost predicate VerifiersTell(c: Checks) {
    forall v :: v in c.verifying.hands <==> v in c.verifiers && c.verifiers[v].Reporting?
  }

  ghost predicate Channels(s: State) {
    WaitLists.Inv(s.wait) && WaitLists.Inv(s.checks.verifying) && VerifiersTell(s.checks)
  }

  lemma WaitingKeeps(objects: Objects, s: State, e: Event)
    requires WaitLists.Inv(s.wait) && OnWait(e) && Enabled(objects, s, e)
    ensures WaitLists.Inv(WaitStep(objects, s, e))
  {
    match e
    case Ask(ch, task) => JoinKeeps(s.wait, task.key, ch);
    case Cancel(ch) => LeaveKeeps(s.wait, ch);
    case Finish(w) => TakeKeeps(s.wait, w, s.crew.workers[w].key, s.crew.workers[w].value);
    case NotifyOne(w) => NotifyKeeps(s.wait, w);
    case NotifyEnd(w) => DropKeeps(s.wait, w);
  }

  lemma AskedKeeps(c: Checks, ch: Chan, key: Key, v: nat)
    requires WaitLists.Inv(c.verifying) && VerifiersTell(c) && ch !in c.verifying.chans && v !in c.verifiers
    ensures WaitLists.Inv(VerifyAskStep(c, ch, key, v).verifying) && VerifiersTell(VerifyAskStep(c, ch, key, v))
  {
    JoinKeeps(c.verifying, key, ch);
  }

  lemma MarkedKeeps(c: Checks, v: nat)
    requires WaitLists.Inv(c.verifying) && VerifiersTell(c) && v in c.verifiers && c.verifiers[v].HasRead? && v !in c.verifying.hands
    ensures WaitLists.Inv(VerifyMarkStep(c, v, c.verifiers[v]).verifying) && VerifiersTell(VerifyMarkStep(c, v, c.verifiers[v]))
  {
    TakeKeeps(c.verifying, v, c.verifiers[v].key, c.verifiers[v].value);
  }

  lemma ChecksKeep(objects: Objects, s: State, e: Event)
    requires WaitLists.Inv(s.checks.verifying) && VerifiersTell(s.checks) && OnChecks(e) && Enabled(objects, s, e)
    ensures WaitLists.Inv(ChecksStep(objects, s, e).verifying) && VerifiersTell(ChecksStep(objects, s, e))
  {
    var c := s.checks;
    match e
    case VerifyAsk(ch, key, v) => AskedKeeps(c, ch, key, v);
    case VerifyMark(v) => MarkedKeeps(c, v);
    case VerifyTell(v) => NotifyKeeps(c.verifying, v);
    case VerifyEnd(v) => DropKeeps(c.verifying, v);
    case VerifyCancel(ch) => LeaveKeeps(c.verifying, ch);
    case _ =>
  }

  lemma StepKeepsChannels(objects: Objects, s: State, e: Event)
    requires Channels(s) && Enabled(objects, s, e)
    ensures Channels(Apply(objects, s, e))
  {
    if OnWait(e) {
      WaitingKeeps(objects, s, e);
    } else if OnChecks(e) {
      ChecksKeep(objects, s, e);
    } else if e.CloseAll? {
      FlushKeeps(s.wait, Error);
      FlushKeeps(s.checks.verifying, Error);
    }
  }
}
