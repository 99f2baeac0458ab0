/** The blob cache under the hydrator: single flight gives every ".tmp" file one writer, so a key
    that is called verified, or whose waiters are told Ok, never names wrong bytes. */
module HydratorFiles {
  import opened Wrappers
  import opened Inflight
  import opened WaitLists
  import opened Hydrator
  import opened HydratorSafety
  import O = OverlayState

  /** The cache file of a key is missing or holds exactly the object's bytes. */
  predicate Good(objects: Objects, f: Files, key: Key) {
    key in f.cache && f.cache[key] in f.data ==> f.data[f.cache[key]] == objects(key)
  }

  /** Names lead to inodes, and a temporary inode has no second name. */
  predicate NamesOk(f: Files) {
    && (forall k :: k in f.tmp ==> f.tmp[k] in f.data)
    && (forall k :: k in f.cache ==> f.cache[k] in f.data)
    && (forall k, l :: k in f.tmp && l in f.tmp && k != l ==> f.tmp[k] != f.tmp[l])
    && (forall k, l :: k in f.tmp && l in f.cache ==> f.tmp[k] != f.cache[l])
  }

  /** The writer has put a prefix of its object into its key's temporary file, and nothing else is there. */
  predicate WriterOk(objects: Objects, f: Files, pc: Pc) {
    pc.Writing? ==>
      && pc.key in f.tmp && f.tmp[pc.key] == pc.ino && pc.ino in f.data
      && pc.done <= |objects(pc.key)| && f.data[pc.ino] == objects(pc.key)[..pc.done]
  }

  predicate FilesOk(objects: Objects, f: Files, workers: map<nat, Pc>) {
    NamesOk(f) && forall w :: w in workers ==> WriterOk(objects, f, workers[w])
  }

  predicate Lasting(objects: Objects, f: Files, g: Files) {
    forall k: Key {:trigger Good(objects, g, k)} :: k in g.cache && Good(objects, f, k) ==> Good(objects, g, k)
  }

  /** No other worker serves the key that this one serves. */
  predicate Alone(workers: map<nat, Pc>, w: nat)
    requires w in workers && Serves(workers[w])
  {
    forall v :: v in workers && v != w && Serves(workers[v]) ==> workers[v].key != workers[w].key
  }

  lemma FlightIsAlone(active: set<Key>, workers: map<nat, Pc>, w: nat)
    requires SingleFlight(active, workers) && w in workers && Serves(workers[w])
    ensures Alone(workers, w)
  {
    forall v | v in workers && v != w && Serves(workers[v]) ensures workers[v].key != workers[w].key {
      assert ServedBy(workers, workers[w].key, w) && ServedBy(workers, workers[v].key, v);
    }
  }

  lemma Continues(bytes: Bytes, done: nat, upto: nat)
    requires done <= upto <= |bytes|
    ensures O.Splice(bytes[..done], done, bytes[done..upto]) == bytes[..upto]
  {
  }

  lemma CreateFiles(objects: Objects, f: Files, workers: map<nat, Pc>, w: nat, ino: nat)
    requires FilesOk(objects, f, workers) && w in workers && workers[w].Fetching? && CanCreate(f, workers[w].key, ino)
    requires Alone(workers, w)
    ensures var g := Created(f, workers[w].key, ino);
      FilesOk(objects, g, workers[w := Writing(workers[w].key, ino, 0, workers[w].last)]) && Lasting(objects, f, g)
  {
    var key := workers[w].key;
    var g := Created(f, key, ino);
    forall v | v in workers && v != w ensures WriterOk(objects, g, workers[v]) { assert WriterOk(objects, f, workers[v]); }
    assert NamesOk(g);
  }

  lemma WriteFiles(objects: Objects, f: Files, workers: map<nat, Pc>, w: nat, upto: nat)
    requires FilesOk(objects, f, workers) && w in workers && workers[w].Writing?
    requires workers[w].done < upto <= |objects(workers[w].key)|
    requires Alone(workers, w)
    ensures workers[w].ino in f.data
    ensures var pc := workers[w]; var g := Written(f, pc.ino, pc.done, objects(pc.key)[pc.done..upto]);
      FilesOk(objects, g, workers[w := Writing(pc.key, pc.ino, upto, pc.last)]) && Lasting(objects, f, g)
  {
    var pc := workers[w];
    assert WriterOk(objects, f, pc);
    Continues(objects(pc.key), pc.done, upto);
    var g := Written(f, pc.ino, pc.done, objects(pc.key)[pc.done..upto]);
    forall v | v in workers && v != w ensures WriterOk(objects, g, workers[v]) { assert WriterOk(objects, f, workers[v]); }
  }

  /** What is renamed into place is the whole object. */
  lemma PublishFiles(objects: Objects, f: Files, workers: map<nat, Pc>, w: nat, next: Pc)
    requires !next.Writing?
    requires FilesOk(objects, f, workers) && w in workers && workers[w].Writing?
    requires workers[w].done == |objects(workers[w].key)| && workers[w].key in f.tmp
    requires Alone(workers, w)
    ensures var key := workers[w].key; var g := Renamed(f, key);
      FilesOk(objects, g, workers[w := next]) && Lasting(objects, f, g) && Good(objects, g, key)
  {
    var pc := workers[w];
    assert WriterOk(objects, f, pc);
    var g := Renamed(f, pc.key);
    forall v | v in workers && v != w ensures WriterOk(objects, g, workers[v]) { assert WriterOk(objects, f, workers[v]); }
    assert objects(pc.key)[..pc.done] == objects(pc.key);
  }

  lemma FailFiles(objects: Objects, f: Files, workers: map<nat, Pc>, w: nat, pc: Pc)
    requires FilesOk(objects, f, workers) && w in workers && Serves(workers[w]) && !pc.Writing?
    requires Alone(workers, w)
    ensures var g := f.(tmp := f.tmp - {workers[w].key});
      FilesOk(objects, g, workers[w := pc]) && Lasting(objects, f, g)
    ensures FilesOk(objects, f, workers[w := pc])
  {
    var key := workers[w].key;
    var g := f.(tmp := f.tmp - {key});
    forall v | v in workers && v != w ensures WriterOk(objects, g, workers[v]) { assert WriterOk(objects, f, workers[v]); }
  }

  predicate Fetches(e: Event) { e.TmpCreate? || e.TmpWrite? || e.Publish? || e.FetchFail? }

  lemma FetchKeepsFiles(objects: Objects, s: State, e: Event)
    requires FilesOk(objects, s.files, s.crew.workers) && Fetches(e) && Enabled(objects, s, e) && Alone(s.crew.workers, e.w)
    ensures FilesOk(objects, FilesStep(objects, s, e), MoveStep(s.crew, e).workers)
    ensures Lasting(objects, s.files, FilesStep(objects, s, e))
    ensures e.Publish? ==> Good(objects, FilesStep(objects, s, e), s.crew.workers[e.w].key)
  {
    var f, workers := s.files, s.crew.workers;
    match e
    case TmpCreate(w, ino) => CreateFiles(objects, f, workers, w, ino);
    case TmpWrite(w, upto) => WriteFiles(objects, f, workers, w, upto);
    case Publish(w, _) => PublishFiles(objects, f, workers, w, MoveStep(s.crew, e).workers[w]);
    case FetchFail(w, removed, retry) => FailFiles(objects, f, workers, w, MoveStep(s.crew, e).workers[w]);
  }

  lemma OthersKeepFiles(objects: Objects, s: State, e: Event)
    requires FilesOk(objects, s.files, s.crew.workers) && !Fetches(e) && Enabled(objects, s, e)
    ensures FilesOk(objects, s.files, CrewStep(objects, s, e).workers)
  {
    var next := CrewStep(objects, s, e).workers;
    forall w | w in next ensures WriterOk(objects, s.files, next[w]) {
      assert next[w].Writing? ==> w in s.crew.workers && next[w] == s.crew.workers[w];
    }
  }

  /** Every event leaves the files in order, and none turns a good cache file into a bad one. */
  lemma StepKeepsFiles(objects: Objects, s: State, e: Event)
    requires FilesOk(objects, s.files, s.crew.workers) && SingleFlight(s.crew.active, s.crew.workers) && Enabled(objects, s, e)
    ensures var t := Apply(objects, s, e);
      FilesOk(objects, t.files, t.crew.workers) && Lasting(objects, s.files, t.files)
    ensures e.Publish? ==> Good(objects, Apply(objects, s, e).files, s.crew.workers[e.w].key)
  {
    if Fetches(e) {
      FlightIsAlone(s.crew.active, s.crew.workers, e.w);
      FetchKeepsFiles(objects, s, e);
    } else {
      OthersKeepFiles(objects, s, e);
    }
  }

  // ---- nobody is told Ok in error ----

  predicate WaitsTrue(objects: Objects, f: Files, s: Waits) {
    && (forall h :: h in s.hands && s.hands[h].value == Ok ==> Good(objects, f, s.hands[h].key))
    && (forall ch :: ch in s.chans && Ok in s.chans[ch].sent ==> Good(objects, f, s.chans[ch].key))
  }

  predicate ChecksTrue(objects: Objects, f: Files, c: Checks) {
    && (forall k :: k in c.verified ==> Good(objects, f, k))
    && (forall v :: v in c.verifiers && c.verifiers[v].HasRead? && c.verifiers[v].value == Ok ==> Good(objects, f, c.verifiers[v].key))
    && WaitsTrue(objects, f, c.verifying)
  }

  predicate FinishTrue(objects: Objects, f: Files, pc: Pc) {
    pc.Finishing? ==> (pc.value == Ok ==> Good(objects, f, pc.key)) && (pc.fetched ==> pc.value == Ok)
  }

  predicate CrewTrue(objects: Objects, f: Files, workers: map<nat, Pc>) {
    forall w :: w in workers ==> FinishTrue(objects, f, workers[w])
  }

  predicate Truthful(objects: Objects, s: State) {
    CrewTrue(objects, s.files, s.crew.workers) && WaitsTrue(objects, s.files, s.wait) && ChecksTrue(objects, s.files, s.checks)
  }

  lemma GoodLasts(objects: Objects, f: Files, g: Files, k: Key)
    requires Lasting(objects, f, g) && Good(objects, f, k)
    ensures Good(objects, g, k)
  {
  }

  lemma TruthLasts(objects: Objects, s: State, g: Files)
    requires Truthful(objects, s) && Lasting(objects, s.files, g)
    ensures Truthful(objects, s.(files := g))
  {
    forall k | Good(objects, s.files, k) ensures Good(objects, g, k) { GoodLasts(objects, s.files, g, k); }
  }

  lemma NotifyTrue(objects: Objects, f: Files, s: Waits, hand: nat)
    requires WaitLists.Inv(s) && WaitsTrue(objects, f, s) && CanNotify(s, hand)
    ensures WaitsTrue(objects, f, Notify(s, hand))
  {
    assert HandOk(s, hand);
  }

  lemma FlushTrue(objects: Objects, f: Files, s: Waits)
    requires WaitsTrue(objects, f, s)
    ensures WaitsTrue(objects, f, Flush(s, Error))
  {
  }

  lemma VouchedIsGood(objects: Objects, f: Files, c: Checks, key: Key, via: Option<Chan>)
    requires ChecksTrue(objects, f, c) && Vouched(c, key, via)
    ensures Good(objects, f, key)
  {
  }

  lemma WaitStepTrue(objects: Objects, s: State, e: Event)
    requires Truthful(objects, s) && WaitLists.Inv(s.wait) && OnWait(e) && Enabled(objects, s, e)
    ensures WaitsTrue(objects, s.files, WaitStep(objects, s, e))
  {
    if e.NotifyOne? { NotifyTrue(objects, s.files, s.wait, e.w); }
  }

  lemma ChecksStepTrue(objects: Objects, s: State, e: Event)
    requires ChecksTrue(objects, s.files, s.checks) && WaitLists.Inv(s.checks.verifying) && OnChecks(e) && Enabled(objects, s, e)
    ensures ChecksTrue(objects, s.files, ChecksStep(objects, s, e))
  {
    if e.VerifyTell? { NotifyTrue(objects, s.files, s.checks.verifying, e.v); }
  }

  lemma CrewStepTrue(objects: Objects, s: State, e: Event, g: Files)
    requires CrewTrue(objects, g, s.crew.workers) && ChecksTrue(objects, g, s.checks) && Enabled(objects, s, e)
    requires e.Publish? ==> Good(objects, g, s.crew.workers[e.w].key)
    ensures CrewTrue(objects, g, CrewStep(objects, s, e).workers)
  {
    if e.Settle? && e.value == Ok { VouchedIsGood(objects, g, s.checks, s.crew.workers[e.w].key, e.via); }
    var next := CrewStep(objects, s, e).workers;
    forall w | w in next ensures FinishTrue(objects, g, next[w]) {
      if w in s.crew.workers { assert FinishTrue(objects, g, s.crew.workers[w]); }
      assert !Moves(e) && next[w].Finishing? ==> w in s.crew.workers && next[w] == s.crew.workers[w];
    }
  }

  lemma FilesStepTrue(objects: Objects, s: State, e: Event)
    requires Truthful(objects, s) && FilesOk(objects, s.files, s.crew.workers)
    requires SingleFlight(s.crew.active, s.crew.workers) && OnFiles(e) && Enabled(objects, s, e)
    ensures Truthful(objects, Apply(objects, s, e))
  {
    var g := FilesStep(objects, s, e);
    StepKeepsFiles(objects, s, e);
    TruthLasts(objects, s, g);
    CrewStepTrue(objects, s, e, g);
  }

  lemma OthersKeepTruth(objects: Objects, s: State, e: Event)
    requires Truthful(objects, s) && Channels(s) && !OnFiles(e) && !OnWait(e) && !OnChecks(e) && Enabled(objects, s, e)
    ensures Truthful(objects, Apply(objects, s, e))
  {
    CrewStepTrue(objects, s, e, s.files);
    if e.CloseAll? {
      FlushTrue(objects, s.files, s.wait);
      FlushTrue(objects, s.files, s.checks.verifying);
    }
  }

  lemma WaitsKeepTruth(objects: Objects, s: State, e: Event)
    requires Truthful(objects, s) && WaitLists.Inv(s.wait) && OnWait(e) && Enabled(objects, s, e)
    ensures Truthful(objects, Apply(objects, s, e))
  {
    CrewStepTrue(objects, s, e, s.files);
    WaitStepTrue(objects, s, e);
    ChecksAfterWait(objects, s, e);
  }

  /** Finishing a fetch marks its key as verified. */
  lemma ChecksAfterWait(objects: Objects, s: State, e: Event)
    requires CrewTrue(objects, s.files, s.crew.workers) && ChecksTrue(objects, s.files, s.checks) && OnWait(e) && Enabled(objects, s, e)
    ensures ChecksTrue(objects, s.files, Apply(objects, s, e).checks) && Apply(objects, s, e).files == s.files
  {
    if e.Finish? && s.crew.workers[e.w].fetched {
      assert FinishTrue(objects, s.files, s.crew.workers[e.w]);
      assert Apply(objects, s, e).checks == s.checks.(verified := s.checks.verified + {s.crew.workers[e.w].key});
    } else {
      assert Apply(objects, s, e).checks == s.checks;
    }
  }

  lemma ChecksKeepTruth(objects: Objects, s: State, e: Event)
    requires Truthful(objects, s) && WaitLists.Inv(s.checks.verifying) && OnChecks(e) && Enabled(objects, s, e)
    ensures Truthful(objects, Apply(objects, s, e))
  {
    ChecksStepTrue(objects, s, e);
    assert CrewStep(objects, s, e) == s.crew;
  }

  lemma StepKeepsTruth(objects: Objects, s: State, e: Event)
    requires Truthful(objects, s) && FilesOk(objects, s.files, s.crew.workers)
    requires SingleFlight(s.crew.active, s.crew.workers) && Channels(s) && Enabled(objects, s, e)
    ensures Truthful(objects, Apply(objects, s, e))
  {
    if OnFiles(e) {
      FilesStepTrue(objects, s, e);
    } else if OnWait(e) {
      WaitsKeepTruth(objects, s, e);
    } else if OnChecks(e) {
      ChecksKeepTruth(objects, s, e);
    } else {
      OthersKeepTruth(objects, s, e);
    }
  }

  // ---- two services over one cache directory ----

  /** Single flight is per service.  When two services fetch one object into one directory, as before and
      after a remount, the second truncates what the first has written; the first goes on at its own
      offset n and publishes an object that starts with zeros. */
  lemma TwoServicesPublishWrongBytes(key: Key, ino: nat, objects: Objects, n: nat)
    requires 0 < n < |objects(key)| && objects(key)[0] != 0
    ensures var f0 := Files(map[], map[], map[]);
            var f1 := Written(Created(f0, key, ino), ino, 0, objects(key)[..n]);
            var f2 := Written(Created(f1, key, ino), ino, n, objects(key)[n..]);
            CanCreate(f0, key, ino) && CanCreate(f1, key, ino) && !Good(objects, Renamed(f2, key), key)
  {
    var f0 := Files(map[], map[], map[]);
    var f1 := Written(Created(f0, key, ino), ino, 0, objects(key)[..n]);
    var f2 := Written(Created(f1, key, ino), ino, n, objects(key)[n..]);
    GapIsZero(objects(key)[n..], n);
    assert f2.data[ino] == O.Splice([], n, objects(key)[n..]);
  }

  lemma GapIsZero(rest: Bytes, n: nat)
    requires n > 0 && rest != []
    ensures var b := O.Splice([], n, rest); b != [] && b[0] == 0
  {
  }
}
