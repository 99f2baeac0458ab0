/** hydrator.Service as a state machine: each event is one critical section under mu, one file
    operation, or one channel operation, by any number of callers, workers and verifiers. */
module Hydrator {
  import opened Wrappers
  import opened Inflight
  import opened TaskHeap
  import opened WaitLists
  import O = OverlayState

  type Bytes = O.Bytes

  /** What git holds under each key. */
  type Objects = Key -> Bytes

  /** Where a worker stands in worker, step and BlobToCache, whose second attempt at a fetch is its last. */
  datatype Pc =
    | Idle
    | Looking
    | Popped(key: Key)
    | Checking(key: Key)
    | Fetching(key: Key, last: bool)
    | Writing(key: Key, ino: nat, done: nat, last: bool)
    | Finishing(key: Key, value: Answer, fetched: bool)
    | Telling
    | Resignalling
    | Exited

  /** Where a verification stands. */
  datatype VPc = Reading(key: Key) | HasRead(key: Key, value: Answer) | Reporting

  /** The blob cache directory: cache files, their ".tmp" siblings, and the inodes both name. */
  datatype Files = Files(cache: map<Key, nat>, tmp: map<Key, nat>, data: map<nat, Bytes>)

  /** The queue, the keys being served, workReady, the signals still owed, and the workers. */
  datatype Crew = Crew(queue: map<Key, Task>, active: set<Key>, token: bool, pending: nat, workers: map<nat, Pc>)

  datatype Checks = Checks(verified: set<Key>, verifying: Waits, verifiers: map<nat, VPc>)

  datatype State = State(crew: Crew, wait: Waits, checks: Checks, files: Files, stopped: bool, flushed: bool)

  datatype Event =
    // callers
    | EnqueueBatch(tasks: seq<Task>)
    | Signal
    | Ask(ch: Chan, task: Task)
    | Cancel(ch: Chan)
    // workers
    | Wake(w: nat)
    | Exit(w: nat)
    | Pop(w: nat, key: Key)
    | PopNone(w: nat)
    | SignalMore(w: nat)
    | Settle(w: nat, value: Answer, via: Option<Chan>)
    | Miss(w: nat)
    | Finish(w: nat)
    | NotifyOne(w: nat)
    | NotifyEnd(w: nat)
    | Resignal(w: nat)
    // fetches
    | TmpCreate(w: nat, ino: nat)
    | TmpWrite(w: nat, upto: nat)
    | Publish(w: nat, told: bool)
    | FetchFail(w: nat, removed: bool, retry: bool)
    // cached-file checks, by callers and workers alike
    | RemoveFile(key: Key)
    | ClearVerified(key: Key)
    | VerifyAsk(ch: Chan, key: Key, v: nat)
    | VerifyRead(v: nat, failed: bool)
    | VerifyMark(v: nat)
    | VerifyTell(v: nat)
    | VerifyEnd(v: nat)
    | VerifyCancel(ch: Chan)
    // Stop
    | CloseStop
    | CloseAll

  function Init(workers: set<nat>, files: Files): State {
    State(Crew(map[], {}, false, 0, map w | w in workers :: Idle), NONE, Checks({}, NONE, map[]), files, false, false)
  }

  // ---- callers ----

  /** EnqueueBatch: the queue after all tasks, and how many signals are owed. */
  function EnqueuedAll(q: map<Key, Task>, tasks: seq<Task>, active: set<Key>): (map<Key, Task>, nat)
    decreases |tasks|
  {
    if tasks == [] then (q, 0)
    else
      var (q1, first) := Enqueued(q, tasks[0], active);
      var (q2, more) := EnqueuedAll(q1, tasks[1..], active);
      (q2, more + if first then 1 else 0)
  }

  /** The locked sections of EnsureHydrated: nothing more to do if the key has waiters or is being
      served, and otherwise it is queued. */
  function AskStep(s: State, task: Task): Crew {
    var c := s.crew;
    if task.key in c.active || task.key in s.wait.lists then c
    else
      var (q, first) := Enqueued(c.queue, task, c.active);
      c.(queue := q, pending := c.pending + if first then 1 else 0)
  }

  // ---- workers ----

  /** The worker is serving a key: it put the key in `active` and will take it out. */
  predicate Serves(pc: Pc) {
    pc.Popped? || pc.Checking? || pc.Fetching? || pc.Writing? || pc.Finishing?
  }

  predicate At(s: State, w: nat, pc: Pc) { w in s.crew.workers && s.crew.workers[w] == pc }

  function To(c: Crew, w: nat, pc: Pc): Crew { c.(workers := c.workers[w := pc]) }

  predicate IsNext(q: map<Key, Task>, key: Key) {
    key in q && forall k :: k in q ==> Leq(q[key], q[k])
  }

  function PopStep(c: Crew, w: nat, key: Key): Crew {
    var rest := c.queue - {key};
    if key in c.active then To(c.(queue := rest), w, Resignalling)
    else To(c.(queue := rest, active := c.active + {key}), w, if rest != map[] then Popped(key) else Checking(key))
  }

  /** validateCachedBlob says ok: the key is in `verified`, or a verification answered so. */
  predicate Vouched(c: Checks, key: Key, via: Option<Chan>) {
    match via
    case None => key in c.verified
    case Some(ch) => ch in c.verifying.chans && c.verifying.chans[ch].key == key && c.verifying.chans[ch].sent == [Ok]
  }

  /** finishHydration, or the end of a fetch: the worker goes on to tell the list it takes. */
  function FinishStep(c: Crew, w: nat): Crew
    requires w in c.workers && c.workers[w].Finishing?
  {
    To(c.(active := c.active - {c.workers[w].key}), w, Telling)
  }

  // ---- fetches ----

  predicate CanCreate(f: Files, key: Key, ino: nat) {
    if key in f.tmp then ino == f.tmp[key] else ino !in f.data
  }

  /** os.Create opens what is there and truncates it. */
  function Created(f: Files, key: Key, ino: nat): Files {
    f.(tmp := f.tmp[key := ino], data := f.data[ino := []])
  }

  function Written(f: Files, ino: nat, off: nat, bytes: Bytes): Files
    requires ino in f.data
  {
    f.(data := f.data[ino := O.Splice(f.data[ino], off, bytes)])
  }

  function Renamed(f: Files, key: Key): Files
    requires key in f.tmp
  {
    f.(cache := f.cache[key := f.tmp[key]], tmp := f.tmp - {key})
  }

  // ---- verifications ----

  function VerifyAskStep(c: Checks, ch: Chan, key: Key, v: nat): Checks
    requires ch !in c.verifying.chans
  {
    if key in c.verified then c
    else
      Checks(c.verified, Join(c.verifying, key, ch),
        if key in c.verifying.lists then c.verifiers else c.verifiers[v := Reading(key)])
  }

  /** git hash-object over the cache file, which cannot hash another object's bytes to this key. */
  function Hashed(objects: Objects, f: Files, key: Key, failed: bool): Answer {
    if failed || key !in f.cache || f.cache[key] !in f.data then Error
    else if f.data[f.cache[key]] == objects(key) then Ok else Bad
  }

  function VerifyMarkStep(c: Checks, v: nat, pc: VPc): Checks
    requires pc.HasRead? && v !in c.verifying.hands
  {
    Checks(if pc.value == Ok then c.verified + {pc.key} else c.verified,
      Take(c.verifying, v, pc.key, pc.value), c.verifiers[v := Reporting])
  }

  /** There is someone to tell next. */
  predicate CanNotify(s: Waits, hand: nat) {
    hand in s.hands && s.hands[hand].chans != [] && s.hands[hand].chans[0] in s.chans
  }

  predicate Emptied(s: Waits, hand: nat) { hand in s.hands && s.hands[hand].chans == [] }

  // ---- the machine ----

  predicate Enabled(objects: Objects, s: State, e: Event) {
    var workers, checks, files := s.crew.workers, s.checks, s.files;
    match e
    case EnqueueBatch(_) => true
    case Signal => s.crew.pending > 0
    case Ask(ch, task) => ch !in s.wait.chans && task.priority == PRIORITY_EXPLICIT_READ
    case Cancel(ch) => ch in s.wait.chans
    case Wake(w) => At(s, w, Idle) && s.crew.token
    case Exit(w) => At(s, w, Idle) && s.stopped
    case Pop(w, key) => At(s, w, Looking) && IsNext(s.crew.queue, key)
    case PopNone(w) => At(s, w, Looking) && s.crew.queue == map[]
    case SignalMore(w) => w in workers && workers[w].Popped?
    case Settle(w, value, via) => w in workers && workers[w].Checking? && value != Bad && (value == Ok ==> Vouched(checks, workers[w].key, via))
    case Miss(w) => w in workers && workers[w].Checking?
    case Finish(w) => w in workers && workers[w].Finishing? && w !in s.wait.hands
    case NotifyOne(w) => At(s, w, Telling) && CanNotify(s.wait, w)
    case NotifyEnd(w) => At(s, w, Telling) && Emptied(s.wait, w)
    case Resignal(w) => At(s, w, Resignalling)
    case TmpCreate(w, ino) => w in workers && workers[w].Fetching? && CanCreate(files, workers[w].key, ino)
    case TmpWrite(w, upto) => w in workers && workers[w].Writing? && workers[w].ino in files.data && workers[w].done < upto <= |objects(workers[w].key)|
    case Publish(w, _) => w in workers && workers[w].Writing? && workers[w].done == |objects(workers[w].key)| && workers[w].key in files.tmp
    case FetchFail(w, _, retry) => w in workers && (workers[w].Fetching? || workers[w].Writing?) && (retry ==> !workers[w].last)
    case RemoveFile(_) => true
    case ClearVerified(_) => true
    case VerifyAsk(ch, _, v) => ch !in checks.verifying.chans && v !in checks.verifiers
    case VerifyRead(v, _) => v in checks.verifiers && checks.verifiers[v].Reading?
    case VerifyMark(v) => v in checks.verifiers && checks.verifiers[v].HasRead? && v !in checks.verifying.hands
    case VerifyTell(v) => v in checks.verifiers && checks.verifiers[v].Reporting? && CanNotify(checks.verifying, v)
    case VerifyEnd(v) => v in checks.verifiers && checks.verifiers[v].Reporting? && Emptied(checks.verifying, v)
    case VerifyCancel(ch) => ch in checks.verifying.chans
    case CloseStop => true
    case CloseAll => s.stopped && !s.flushed
  }

  /** Events after which a worker stands somewhere else with the same key, or still with none. */
  predicate Moves(e: Event) {
    e.Wake? || e.Exit? || e.PopNone? || e.SignalMore? || e.Settle? || e.Miss? || e.Resignal?
    || e.TmpCreate? || e.TmpWrite? || e.Publish? || e.FetchFail?
  }

  function MoveStep(c: Crew, e: Event): Crew
    requires Moves(e) && e.w in c.workers
    requires e.SignalMore? || e.Settle? || e.Miss? || e.TmpCreate? || e.TmpWrite? || e.Publish? || e.FetchFail? ==> Serves(c.workers[e.w])
    requires e.TmpCreate? ==> c.workers[e.w].Fetching?
    requires e.TmpWrite? ==> c.workers[e.w].Writing?
  {
    var w, pc := e.w, c.workers[e.w];
    match e
    case Wake(_) => To(c.(token := false), w, Looking)
    case Exit(_) => To(c, w, Exited)
    case PopNone(_) => To(c, w, Idle)
    case SignalMore(_) => To(c.(token := true), w, Checking(pc.key))
    case Settle(_, value, _) => To(c, w, Finishing(pc.key, value, false))
    case Miss(_) => To(c, w, Fetching(pc.key, false))
    case Resignal(_) => To(c.(token := true), w, Looking)
    case TmpCreate(_, ino) => To(c, w, Writing(pc.key, ino, 0, pc.last))
    case TmpWrite(_, upto) => To(c, w, Writing(pc.key, pc.ino, upto, pc.last))
    // the file is in place, but the context may have ended before the fetch could say so
    case Publish(_, told) => To(c, w, Finishing(pc.key, if told then Ok else Error, told))
    case FetchFail(_, _, retry) => To(c, w, if retry then Fetching(pc.key, true) else Finishing(pc.key, Error, false))
  }

  /** Events on the blob cache directory. */
  predicate OnFiles(e: Event) { e.TmpCreate? || e.TmpWrite? || e.Publish? || e.FetchFail? || e.RemoveFile? }

  function FilesStep(objects: Objects, s: State, e: Event): Files
    requires OnFiles(e) && Enabled(objects, s, e)
  {
    var f, workers := s.files, s.crew.workers;
    match e
    case TmpCreate(w, ino) => Created(f, workers[w].key, ino)
    case TmpWrite(w, upto) => Written(f, workers[w].ino, workers[w].done, objects(workers[w].key)[workers[w].done..upto])
    case Publish(w, _) => Renamed(f, workers[w].key)
    case FetchFail(w, removed, _) => if removed then f.(tmp := f.tmp - {workers[w].key}) else f
    case RemoveFile(key) => f.(cache := f.cache - {key})
  }

  /** Events of the verification side. */
  predicate OnChecks(e: Event) {
    e.ClearVerified? || e.VerifyAsk? || e.VerifyRead? || e.VerifyMark? || e.VerifyTell? || e.VerifyEnd? || e.VerifyCancel?
  }

  function ChecksStep(objects: Objects, s: State, e: Event): Checks
    requires OnChecks(e) && Enabled(objects, s, e)
  {
    var c := s.checks;
    match e
    case ClearVerified(key) => c.(verified := c.verified - {key})
    case VerifyAsk(ch, key, v) => VerifyAskStep(c, ch, key, v)
    case VerifyRead(v, failed) =>
      c.(verifiers := c.verifiers[v := HasRead(c.verifiers[v].key, Hashed(objects, s.files, c.verifiers[v].key, failed))])
    case VerifyMark(v) => VerifyMarkStep(c, v, c.verifiers[v])
    case VerifyTell(v) => c.(verifying := Notify(c.verifying, v))
    case VerifyEnd(v) => c.(verifying := Drop(c.verifying, v), verifiers := c.verifiers - {v})
    case VerifyCancel(ch) => c.(verifying := Leave(c.verifying, ch))
  }

  /** Events on the waiter lists of hydrations. */
  predicate OnWait(e: Event) { e.Ask? || e.Cancel? || e.Finish? || e.NotifyOne? || e.NotifyEnd? }

  function WaitStep(objects: Objects, s: State, e: Event): Waits
    requires OnWait(e) && Enabled(objects, s, e)
  {
    match e
    case Ask(ch, task) => Join(s.wait, task.key, ch)
    case Cancel(ch) => Leave(s.wait, ch)
    case Finish(w) => Take(s.wait, w, s.crew.workers[w].key, s.crew.workers[w].value)
    case NotifyOne(w) => Notify(s.wait, w)
    case NotifyEnd(w) => Drop(s.wait, w)
  }

  function CrewStep(objects: Objects, s: State, e: Event): Crew
    requires Enabled(objects, s, e)
  {
    var c := s.crew;
    if Moves(e) then MoveStep(c, e)
    else match e
      case EnqueueBatch(tasks) =>
        var (q, n) := EnqueuedAll(c.queue, tasks, c.active);
        c.(queue := q, pending := c.pending + n)
      case Signal => c.(pending := c.pending - 1, token := true)
      case Ask(_, task) => AskStep(s, task)
      case Pop(w, key) => PopStep(c, w, key)
      case Finish(w) => FinishStep(c, w)
      case NotifyEnd(w) => To(c, w, Resignalling)
      case _ => c
  }

  function Apply(objects: Objects, s: State, e: Event): State
    requires Enabled(objects, s, e)
  {
    State(CrewStep(objects, s, e),
      if OnWait(e) then WaitStep(objects, s, e) else if e.CloseAll? then Flush(s.wait, Error) else s.wait,
      if OnChecks(e) then ChecksStep(objects, s, e)
      else if e.CloseAll? then s.checks.(verifying := Flush(s.checks.verifying, Error))
      // a fetched key is marked under the same lock that takes its waiters
      else if e.Finish? && s.crew.workers[e.w].fetched then s.checks.(verified := s.checks.verified + {s.crew.workers[e.w].key})
      else s.checks,
      if OnFiles(e) then FilesStep(objects, s, e) else s.files,
      s.stopped || e.CloseStop?, s.flushed || e.CloseAll?)
  }

  predicate Runs(objects: Objects, s: State, es: seq<Event>)
    decreases |es|
  {
    es == [] || (Enabled(objects, s, es[0]) && Runs(objects, Apply(objects, s, es[0]), es[1..]))
  }

  function After(objects: Objects, s: State, es: seq<Event>): State
    requires Runs(objects, s, es)
    decreases |es|
  {
    if es == [] then s else After(objects, Apply(objects, s, es[0]), es[1..])
  }
}
