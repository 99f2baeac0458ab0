/** The hydrator answers: left to itself it comes to rest after a bounded number of steps, and at rest,
    with a worker left, nobody waits. */
module HydratorProgress {
  import opened Inflight
  import opened TaskHeap
  import opened WaitLists
  import opened Hydrator
  import opened HydratorSafety
  import opened HydratorFiles
  import opened HydratorRuns

  // ---- sums over maps ----

  ghost function Pick<K(!new)>(m: map<K, nat>): (k: K)
    requires m != map[]
    ensures k in m
  {
    var k :| k in m; k
  }

  ghost function Total<K(!new)>(m: map<K, nat>): nat
    decreases m.Keys
  {
    if m == map[] then 0 else m[Pick(m)] + Total(m - {Pick(m)})
  }

  lemma {:induction false} TotalAt<K(!new)>(m: map<K, nat>, k: K)
    requires k in m
    ensures Total(m) == m[k] + Total(m - {k})
    decreases m.Keys
  {
    var j := Pick(m);
    if j != k {
      TotalAt(m - {j}, k);
      TotalAt(m - {k}, j);
      assert m - {j} - {k} == m - {k} - {j};
    }
  }

  lemma TotalUpdate<K(!new)>(m: map<K, nat>, k: K, v: nat)
    requires k in m
    ensures Total(m[k := v]) + m[k] == Total(m) + v
  {
    TotalAt(m, k);
    TotalAt(m[k := v], k);
    assert m[k := v] - {k} == m - {k};
  }

  // ---- how much the service still has to do ----

  function Left(size: nat, done: nat): nat { if done <= size then size - done else 0 }

  function PcRank(objects: Objects, pc: Pc): nat {
    match pc
    case Idle => 0
    case Exited => 0
    case Looking => 2
    case Resignalling => 6
    case Telling => 7
    case Finishing(_, _, _) => 8
    case Writing(key, _, done, last) => Left(|objects(key)|, done) + if last then 9 else 11 + |objects(key)|
    case Fetching(key, last) => |objects(key)| + if last then 10 else 12 + |objects(key)|
    case Checking(key) => 13 + 2 * |objects(key)|
    case Popped(key) => 17 + 2 * |objects(key)|
  }

  function QueueRanks(objects: Objects, q: map<Key, Task>): map<Key, nat> { map k | k in q :: 16 + 2 * |objects(k)| }

  function WorkerRanks(objects: Objects, workers: map<nat, Pc>): map<nat, nat> {
    map w | w in workers :: PcRank(objects, workers[w])
  }

  ghost function CrewRank(objects: Objects, c: Crew): nat {
    Total(QueueRanks(objects, c.queue)) + Total(WorkerRanks(objects, c.workers)) + 4 * c.pending + if c.token then 3 else 0
  }

  /** Calls that wait: listed, or in the hands of a worker that tells its list out. */
  predicate Waiting(s: Waits, ch: Chan) { ch in s.chans && (s.chans[ch].place == Listed || s.chans[ch].place.InHand?) }

  function Open(s: Waits): set<Chan> { set ch | ch in s.chans && Waiting(s, ch) }

  ghost function Rank(objects: Objects, s: State): nat { CrewRank(objects, s.crew) + |Open(s.wait)| }

  /** Events that the service brings about by itself. */
  predicate ByService(e: Event) {
    (Moves(e) && !e.Exit?) || e.Signal? || e.Pop? || e.Finish? || e.NotifyOne? || e.NotifyEnd?
  }

  lemma WorkersMove(objects: Objects, workers: map<nat, Pc>, w: nat, pc: Pc)
    requires w in workers
    ensures Total(WorkerRanks(objects, workers[w := pc])) + PcRank(objects, workers[w])
         == Total(WorkerRanks(objects, workers)) + PcRank(objects, pc)
  {
    assert WorkerRanks(objects, workers[w := pc]) == WorkerRanks(objects, workers)[w := PcRank(objects, pc)];
    TotalUpdate(WorkerRanks(objects, workers), w, PcRank(objects, pc));
  }

  lemma QueueShrinks(objects: Objects, q: map<Key, Task>, key: Key)
    requires key in q
    ensures Total(QueueRanks(objects, q - {key})) + 16 + 2 * |objects(key)| == Total(QueueRanks(objects, q))
  {
    assert QueueRanks(objects, q - {key}) == QueueRanks(objects, q) - {key};
    TotalAt(QueueRanks(objects, q), key);
  }

  lemma MoveRank(objects: Objects, c: Crew, w: nat, pc: Pc, token: bool)
    requires w in c.workers
    requires PcRank(objects, pc) + (if token then 3 else 0) < PcRank(objects, c.workers[w]) + if c.token then 3 else 0
    ensures CrewRank(objects, To(c.(token := token), w, pc)) < CrewRank(objects, c)
  {
    WorkersMove(objects, c.workers, w, pc);
  }

  lemma PopRank(objects: Objects, c: Crew, w: nat, key: Key)
    requires w in c.workers && c.workers[w] == Looking && key in c.queue
    ensures CrewRank(objects, PopStep(c, w, key)) < CrewRank(objects, c)
  {
    var pc := PopStep(c, w, key).workers[w];
    assert PcRank(objects, pc) < 18 + 2 * |objects(key)|;
    WorkersMove(objects, c.workers, w, pc);
    QueueShrinks(objects, c.queue, key);
    assert PopStep(c, w, key).workers == c.workers[w := pc] && PopStep(c, w, key).queue == c.queue - {key};
  }

  lemma MovesRank(objects: Objects, s: State, e: Event)
    requires Moves(e) && !e.Exit? && Enabled(objects, s, e)
    ensures CrewRank(objects, MoveStep(s.crew, e)) < CrewRank(objects, s.crew)
  {
    var c := MoveStep(s.crew, e);
    MoveRank(objects, s.crew, e.w, c.workers[e.w], c.token);
    assert c == To(s.crew.(token := c.token), e.w, c.workers[e.w]);
  }

  lemma TakeKeepsOpen(s: Waits, hand: nat, key: Key, value: Answer)
    requires WaitLists.Inv(s) && hand !in s.hands
    ensures Open(Take(s, hand, key, value)) == Open(s)
  {
    if key in s.lists { assert ListOk(s, key); }
  }

  lemma NotifyCloses(s: Waits, hand: nat)
    requires WaitLists.Inv(s) && CanNotify(s, hand)
    ensures Open(Notify(s, hand)) == Open(s) - {s.hands[hand].chans[0]} && s.hands[hand].chans[0] in Open(s)
  {
    assert HandOk(s, hand);
  }

  lemma OthersRank(objects: Objects, s: State, e: Event)
    requires ByService(e) && !Moves(e) && !e.NotifyOne? && Enabled(objects, s, e)
    ensures CrewRank(objects, CrewStep(objects, s, e)) < CrewRank(objects, s.crew)
  {
    match e
    case Signal =>
    case Pop(w, key) => PopRank(objects, s.crew, w, key);
    case Finish(w) => FinishRank(objects, s.crew, w);
    case NotifyEnd(w) => MoveRank(objects, s.crew, w, Resignalling, s.crew.token);
  }

  lemma FinishRank(objects: Objects, c: Crew, w: nat)
    requires w in c.workers && c.workers[w].Finishing?
    ensures CrewRank(objects, FinishStep(c, w)) < CrewRank(objects, c)
  {
    WorkersMove(objects, c.workers, w, Telling);
  }

  lemma WaitsShrink(objects: Objects, s: State, e: Event)
    requires WaitLists.Inv(s.wait) && ByService(e) && OnWait(e) && Enabled(objects, s, e)
    ensures Open(WaitStep(objects, s, e)) <= Open(s.wait)
    ensures e.NotifyOne? ==> Open(WaitStep(objects, s, e)) < Open(s.wait)
  {
    match e
    case Finish(w) => TakeKeepsOpen(s.wait, w, s.crew.workers[w].key, s.crew.workers[w].value);
    case NotifyOne(w) => NotifyCloses(s.wait, w);
    case NotifyEnd(w) =>
  }

  lemma SmallerSet<T>(a: set<T>, b: set<T>)
    ensures a <= b ==> |a| <= |b|
    ensures a < b ==> |a| < |b|
  {
    if a <= b { assert b == a + (b - a); }
  }

  /** Every step of the service leaves less to do. */
  lemma StepRanks(objects: Objects, s: State, e: Event)
    requires WaitLists.Inv(s.wait) && ByService(e) && Enabled(objects, s, e)
    ensures Rank(objects, Apply(objects, s, e)) < Rank(objects, s)
  {
    if Moves(e) {
      MovesRank(objects, s, e);
    } else if !e.NotifyOne? {
      OthersRank(objects, s, e);
    }
    if OnWait(e) {
      WaitsShrink(objects, s, e);
      SmallerSet(Open(WaitStep(objects, s, e)), Open(s.wait));
    }
  }

  // ---- at rest ----

  /** Steps of the service at which nothing goes wrong. */
  predicate Smooth(e: Event) { ByService(e) && !e.FetchFail? && !(e.Settle? && e.value == Error) && !(e.Publish? && !e.told) }

  ghost predicate CanAct(objects: Objects, s: State) {
    exists e :: Smooth(e) && Enabled(objects, s, e)
  }

  lemma {:induction false} SomeNext(q: map<Key, Task>)
    requires q != map[]
    ensures exists k :: IsNext(q, k)
    decreases q.Keys
  {
    var k :| k in q;
    var rest := q - {k};
    if rest == map[] {
      assert forall l :: l in q && l != k ==> l in rest;
      assert IsNext(q, k);
    } else {
      SomeNext(rest);
      var j :| IsNext(rest, j);
      assert IsNext(q, if Leq(q[k], q[j]) then k else j) by {
        forall l | l in q ensures Leq(q[if Leq(q[k], q[j]) then k else j], q[l]) {
          if l != k { assert Leq(rest[j], rest[l]); }
        }
      }
    }
  }

  lemma {:induction false} SomeInode(used: set<nat>) returns (n: nat)
    ensures forall m :: m in used ==> m < n
    decreases used
  {
    if used == {} {
      n := 0;
    } else {
      var m :| m in used;
      var rest := SomeInode(used - {m});
      n := if rest <= m then m + 1 else rest;
      assert forall k :: k in used && k != m ==> k in used - {m};
    }
  }

  /** A fetch can go on: the temporary file can be made, written and renamed. */
  lemma FetcherCanAct(objects: Objects, s: State, w: nat)
    requires FilesOk(objects, s.files, s.crew.workers) && w in s.crew.workers
    requires s.crew.workers[w].Fetching? || s.crew.workers[w].Writing?
    ensures CanAct(objects, s)
  {
    var f, pc := s.files, s.crew.workers[w];
    assert WriterOk(objects, f, pc);
    var e;
    if pc.Fetching? {
      var unused := SomeInode(f.data.Keys);
      e := TmpCreate(w, if pc.key in f.tmp then f.tmp[pc.key] else unused);
    } else if pc.done < |objects(pc.key)| {
      e := TmpWrite(w, |objects(pc.key)|);
    } else {
      e := Publish(w, true);
    }
    assert Smooth(e) && Enabled(objects, s, e);
  }

  lemma TellerCanAct(objects: Objects, s: State, w: nat)
    requires WaitLists.Inv(s.wait) && w in s.crew.workers && s.crew.workers[w].Telling? && w in s.wait.hands
    ensures CanAct(objects, s)
  {
    var e := if s.wait.hands[w].chans == [] then NotifyEnd(w) else NotifyOne(w);
    if s.wait.hands[w].chans != [] { NotifyKeeps(s.wait, w); }
    assert Smooth(e) && Enabled(objects, s, e);
  }

  lemma LookerCanAct(objects: Objects, s: State, w: nat)
    requires w in s.crew.workers && s.crew.workers[w].Looking?
    ensures CanAct(objects, s)
  {
    if s.crew.queue == map[] {
      assert Smooth(PopNone(w)) && Enabled(objects, s, PopNone(w));
    } else {
      SomeNext(s.crew.queue);
      var key :| IsNext(s.crew.queue, key);
      assert Smooth(Pop(w, key)) && Enabled(objects, s, Pop(w, key));
    }
  }

  lemma BusyCanAct(objects: Objects, s: State, w: nat)
    requires Safe(objects, s) && w in s.crew.workers && !s.crew.workers[w].Idle? && !s.crew.workers[w].Exited?
    ensures CanAct(objects, s)
  {
    match s.crew.workers[w]
    case Popped(_) => assert Smooth(SignalMore(w)) && Enabled(objects, s, SignalMore(w));
    case Checking(_) => assert Smooth(Miss(w)) && Enabled(objects, s, Miss(w));
    case Fetching(_, _) => FetcherCanAct(objects, s, w);
    case Writing(_, _, _, _) => FetcherCanAct(objects, s, w);
    case Finishing(_, _, _) => assert Smooth(Finish(w)) && Enabled(objects, s, Finish(w));
    case Telling => TellerCanAct(objects, s, w);
    case Resignalling => assert Smooth(Resignal(w)) && Enabled(objects, s, Resignal(w));
    case Looking => LookerCanAct(objects, s, w);
  }

  predicate LiveWorker(s: State, w: nat) { w in s.crew.workers && !s.crew.workers[w].Exited? }

  /** While someone waits, before Stop or after it, a service with a worker left has a step to take at
      which nothing goes wrong. */
  lemma NeverAtRest(objects: Objects, s: State, w: nat)
    requires Safe(objects, s) && LiveWorker(s, w) && Open(s.wait) != {}
    ensures CanAct(objects, s)
  {
    var ch :| ch in Open(s.wait);
    var c := s.crew;
    assert ChanOk(s.wait, ch);
    if s.wait.chans[ch].place.InHand? {
      BusyCanAct(objects, s, s.wait.chans[ch].place.hand);
    } else if s.wait.chans[ch].key in c.active {
      var v :| ServedBy(c.workers, s.wait.chans[ch].key, v);
      BusyCanAct(objects, s, v);
    } else {
      QueuedCanAct(objects, s, w);
    }
  }

  lemma QueuedCanAct(objects: Objects, s: State, w: nat)
    requires Safe(objects, s) && LiveWorker(s, w) && s.crew.queue != map[]
    ensures CanAct(objects, s)
  {
    var c := s.crew;
    if !c.workers[w].Idle? {
      BusyCanAct(objects, s, w);
    } else if c.token {
      assert Smooth(Wake(w)) && Enabled(objects, s, Wake(w));
    } else if c.pending > 0 {
      assert Smooth(Signal) && Enabled(objects, s, Signal);
    } else {
      var v :| v in c.workers && Alert(c.workers[v]);
      BusyCanAct(objects, s, v);
    }
  }

  // ---- runs of the service ----

  predicate ServiceRun(objects: Objects, s: State, es: seq<Event>) {
    Runs(objects, s, es) && forall i :: 0 <= i < |es| ==> ByService(es[i])
  }

  predicate Told(s: Waits, ch: Chan) { ch in s.chans && s.chans[ch].place == Answered && |s.chans[ch].sent| == 1 && s.chans[ch].closed }

  /** No call that waits or has its result is lost. */
  ghost predicate Accounted(a: Waits, b: Waits) {
    forall ch :: Waiting(a, ch) || Told(a, ch) ==> Waiting(b, ch) || Told(b, ch)
  }

  lemma StaysLive(objects: Objects, s: State, e: Event, w: nat)
    requires LiveWorker(s, w) && ByService(e) && Enabled(objects, s, e)
    ensures LiveWorker(Apply(objects, s, e), w)
  {
    if Moves(e) { MoveStaysLive(objects, s, e, w); }
  }

  lemma MoveStaysLive(objects: Objects, s: State, e: Event, w: nat)
    requires LiveWorker(s, w) && Moves(e) && !e.Exit? && Enabled(objects, s, e)
    ensures w in MoveStep(s.crew, e).workers && !MoveStep(s.crew, e).workers[w].Exited?
  {
  }

  lemma WaitsOrTold(objects: Objects, s: State, e: Event, ch: Chan)
    requires ByService(e) && OnWait(e) && Enabled(objects, s, e) && (Waiting(s.wait, ch) || Told(s.wait, ch))
    requires WaitLists.Inv(WaitStep(objects, s, e))
    ensures Waiting(WaitStep(objects, s, e), ch) || Told(WaitStep(objects, s, e), ch)
  {
    assert ch in WaitStep(objects, s, e).chans && ChanOk(WaitStep(objects, s, e), ch);
  }

  lemma StepAccounts(objects: Objects, s: State, e: Event)
    requires WaitLists.Inv(s.wait) && ByService(e) && Enabled(objects, s, e)
    ensures Accounted(s.wait, Apply(objects, s, e).wait)
  {
    if OnWait(e) {
      WaitingKeeps(objects, s, e);
      forall ch | Waiting(s.wait, ch) || Told(s.wait, ch)
        ensures Waiting(WaitStep(objects, s, e), ch) || Told(WaitStep(objects, s, e), ch)
      {
        WaitsOrTold(objects, s, e, ch);
      }
    }
  }

  /** What one step of the service does for progress. */
  lemma ServiceStep(objects: Objects, s: State, e: Event, w: nat) returns (t: State)
    requires Safe(objects, s) && LiveWorker(s, w) && ByService(e) && Enabled(objects, s, e)
    ensures t == Apply(objects, s, e) && Safe(objects, t) && LiveWorker(t, w)
    ensures Rank(objects, t) < Rank(objects, s) && Accounted(s.wait, t.wait)
  {
    t := Apply(objects, s, e);
    StepSafe(objects, s, e);
    StepRanks(objects, s, e);
    StaysLive(objects, s, e, w);
    StepAccounts(objects, s, e);
  }

  lemma ServiceTail(objects: Objects, s: State, t: State, es: seq<Event>)
    requires es != [] && ServiceRun(objects, s, es) && t == Apply(objects, s, es[0])
    ensures ServiceRun(objects, t, es[1..]) && After(objects, s, es) == After(objects, t, es[1..])
  {
    forall i | 0 <= i < |es[1..]| ensures ByService(es[1..][i]) { assert es[1..][i] == es[i + 1]; }
  }

  lemma AccountedTrans(a: Waits, b: Waits, c: Waits)
    requires Accounted(a, b) && Accounted(b, c)
    ensures Accounted(a, c)
  {
  }

  /** A run of the service alone is never longer than what it had to do at first, and leaves no call
      unaccounted for. */
  lemma {:induction false} ServiceRunIsShort(objects: Objects, s: State, es: seq<Event>, w: nat)
    requires Safe(objects, s) && LiveWorker(s, w) && ServiceRun(objects, s, es)
    ensures var t := After(objects, s, es);
      |es| + Rank(objects, t) <= Rank(objects, s) && Safe(objects, t) && LiveWorker(t, w) && Accounted(s.wait, t.wait)
    decreases |es|
  {
    if es != [] {
      var t := ServiceStep(objects, s, es[0], w);
      ServiceTail(objects, s, t, es);
      ServiceRunIsShort(objects, t, es[1..], w);
      AccountedTrans(s.wait, t.wait, After(objects, t, es[1..]).wait);
    }
  }

  /** However the workers interleave, and whatever fetches fail: once the service can do no more by
      itself, every call that waited has its one result. */
  lemma EveryFullRunAnswers(objects: Objects, s: State, es: seq<Event>, w: nat, ch: Chan)
    requires Safe(objects, s) && LiveWorker(s, w) && ServiceRun(objects, s, es) && Waiting(s.wait, ch)
    requires forall e :: ByService(e) ==> !Enabled(objects, After(objects, s, es), e)
    ensures Told(After(objects, s, es).wait, ch) && |es| <= Rank(objects, s)
  {
    ServiceRunIsShort(objects, s, es, w);
    var t := After(objects, s, es);
    if Waiting(t.wait, ch) {
      assert ch in Open(t.wait);
      NeverAtRest(objects, t, w);
    }
  }

  predicate SmoothRun(objects: Objects, s: State, es: seq<Event>) {
    ServiceRun(objects, s, es) && forall i :: 0 <= i < |es| ==> Smooth(es[i])
  }

  lemma SmoothCons(objects: Objects, s: State, t: State, e: Event, rest: seq<Event>)
    requires Smooth(e) && Enabled(objects, s, e) && t == Apply(objects, s, e) && SmoothRun(objects, t, rest)
    ensures SmoothRun(objects, s, [e] + rest) && After(objects, s, [e] + rest) == After(objects, t, rest)
  {
    var es := [e] + rest;
    assert es[0] == e && es[1..] == rest;
    forall i | 0 <= i < |es| ensures Smooth(es[i]) {
      if i > 0 { assert es[i] == rest[i - 1]; }
    }
    RunStep(objects, s, es);
  }

  /** And a run in which nothing goes wrong exists. */
  lemma {:induction false} SomeRunAnswers(objects: Objects, s: State, w: nat) returns (es: seq<Event>)
    requires Safe(objects, s) && LiveWorker(s, w)
    ensures SmoothRun(objects, s, es) && |es| <= Rank(objects, s)
    ensures Open(After(objects, s, es).wait) == {} && Accounted(s.wait, After(objects, s, es).wait)
    decreases Rank(objects, s)
  {
    if Open(s.wait) == {} {
      es := [];
    } else {
      NeverAtRest(objects, s, w);
      var e :| Smooth(e) && Enabled(objects, s, e);
      var t := ServiceStep(objects, s, e, w);
      var rest := SomeRunAnswers(objects, t, w);
      es := [e] + rest;
      SmoothCons(objects, s, t, e, rest);
    }
  }

  /** So every call that waits is answered in it. */
  lemma EveryoneCanBeAnswered(objects: Objects, s: State, w: nat, ch: Chan) returns (es: seq<Event>)
    requires Safe(objects, s) && LiveWorker(s, w) && Waiting(s.wait, ch)
    ensures SmoothRun(objects, s, es) && |es| <= Rank(objects, s) && Told(After(objects, s, es).wait, ch)
  {
    es := SomeRunAnswers(objects, s, w);
    assert ch !in Open(After(objects, s, es).wait);
  }

  // ---- the exact condition ----

  ghost predicate CanBeTold(objects: Objects, s: State, ch: Chan) {
    exists es :: Runs(objects, s, es) && Told(After(objects, s, es).wait, ch)
  }

  lemma TwoSteps(objects: Objects, s: State, e: Event, f: Event)
    requires Enabled(objects, s, e) && Enabled(objects, Apply(objects, s, e), f)
    ensures Runs(objects, s, [e, f]) && After(objects, s, [e, f]) == Apply(objects, Apply(objects, s, e), f)
  {
    var t := Apply(objects, s, e);
    assert [e, f][1..] == [f] && [f][1..] == [];
    RunStep(objects, t, [f]);
    RunStep(objects, s, [e, f]);
  }

  lemma FlushTells(s: Waits, ch: Chan)
    requires WaitLists.Inv(s) && ch in s.chans && s.chans[ch].place == Listed
    ensures Told(Flush(s, Error), ch)
  {
    FlushKeeps(s, Error);
    assert ChanOk(Flush(s, Error), ch);
  }

  lemma StopTells(objects: Objects, s: State, ch: Chan)
    requires WaitLists.Inv(s.wait) && !s.flushed && ch in s.wait.chans && s.wait.chans[ch].place == Listed
    ensures CanBeTold(objects, s, ch)
  {
    StopIs(objects, s);
    CloseAllIs(objects, s.(stopped := true));
    FlushTells(s.wait, ch);
    TwoSteps(objects, s, CloseStop, CloseAll);
    assert Told(After(objects, s, [CloseStop, CloseAll]).wait, ch);
  }

  /** A waiting call can still be answered unless Stop has told everyone off and every worker is gone. */
  lemma AnswerableIff(objects: Objects, s: State, ch: Chan)
    requires Safe(objects, s) && ch in s.wait.chans && s.wait.chans[ch].place == Listed
    ensures CanBeTold(objects, s, ch) <==> !s.flushed || exists w :: LiveWorker(s, w)
  {
    if !s.flushed {
      StopTells(objects, s, ch);
    } else if w :| LiveWorker(s, w) {
      var es := EveryoneCanBeAnswered(objects, s, w, ch);
    } else {
      forall w | w in s.crew.workers ensures s.crew.workers[w].Exited? { assert !LiveWorker(s, w); }
      forall es | Runs(objects, s, es) ensures !Told(After(objects, s, es).wait, ch) {
        AbandonedForGood(objects, s, ch, es);
      }
    }
  }
}
