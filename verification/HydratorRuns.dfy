/** Whole runs of the hydrator: what holds in every reachable state, what becomes of calls after Stop, and
    when more than one verification of a key can be under way. */
module HydratorRuns {
  import opened Inflight
  import opened TaskHeap
  import opened WaitLists
  import opened Hydrator
  import opened HydratorSafety
  import opened HydratorFiles

  ghost predicate Safe(objects: Objects, s: State) {
    Scheduled(s) && Channels(s) && FilesOk(objects, s.files, s.crew.workers) && Truthful(objects, s)
  }

  lemma StartsSafe(objects: Objects, workers: set<nat>, files: Files)
    requires NamesOk(files)
    ensures Safe(objects, Init(workers, files))
  {
  }

  lemma StepSafe(objects: Objects, s: State, e: Event)
    requires Safe(objects, s) && Enabled(objects, s, e)
    ensures Safe(objects, Apply(objects, s, e))
  {
    StepSchedules(objects, s, e);
    StepKeepsChannels(objects, s, e);
    StepKeepsFiles(objects, s, e);
    StepKeepsTruth(objects, s, e);
  }

  lemma {:induction false} RunSafe(objects: Objects, s: State, es: seq<Event>)
    requires Safe(objects, s) && Runs(objects, s, es)
    ensures Safe(objects, After(objects, s, es))
    decreases |es|
  {
    if es != [] {
      StepSafe(objects, s, es[0]);
      RunSafe(objects, Apply(objects, s, es[0]), es[1..]);
    }
  }

  /** Whatever any number of callers and workers do, from any cache directory the service starts on:
      a key that counts as verified, and a key whose waiter was told Ok, names no wrong bytes. */
  lemma VerifiedNamesRightBytes(objects: Objects, workers: set<nat>, files: Files, es: seq<Event>, key: Key)
    requires NamesOk(files) && Runs(objects, Init(workers, files), es)
    ensures var s := After(objects, Init(workers, files), es);
      && (key in s.checks.verified ==> Good(objects, s.files, key))
      && (forall ch :: ch in s.wait.chans && s.wait.chans[ch].key == key && Ok in s.wait.chans[ch].sent ==> Good(objects, s.files, key))
  {
    StartsSafe(objects, workers, files);
    RunSafe(objects, Init(workers, files), es);
  }

  /** A key that someone waits for is queued, or exactly one worker serves it; never both. */
  lemma WaitersAreAttended(objects: Objects, workers: set<nat>, files: Files, es: seq<Event>, key: Key)
    requires NamesOk(files) && Runs(objects, Init(workers, files), es)
    requires key in After(objects, Init(workers, files), es).wait.lists
    ensures var c := After(objects, Init(workers, files), es).crew;
      && (key in c.queue) != (key in c.active)
      && (key in c.active ==> exists w :: ServedBy(c.workers, key, w) && Alone(c.workers, w))
  {
    StartsSafe(objects, workers, files);
    RunSafe(objects, Init(workers, files), es);
    var c := After(objects, Init(workers, files), es).crew;
    if key in c.active {
      var w :| ServedBy(c.workers, key, w);
      FlightIsAlone(c.active, c.workers, w);
    }
  }

  // ---- after Stop ----

  predicate Abandoned(s: State, ch: Chan) {
    && s.stopped && s.flushed
    && (forall w :: w in s.crew.workers ==> s.crew.workers[w].Exited?)
    && ch in s.wait.chans && (s.wait.chans[ch].place == Listed || s.wait.chans[ch].place == Withdrawn)
  }

  lemma StaysAbandoned(objects: Objects, s: State, ch: Chan, e: Event)
    requires WorkersTell(s.wait.hands, s.crew.workers) && Abandoned(s, ch) && Enabled(objects, s, e)
    ensures Abandoned(Apply(objects, s, e), ch)
  {
    assert !Moves(e) && !e.CloseAll? && !e.Finish? && !e.Pop? && !e.NotifyOne? && !e.NotifyEnd?;
    assert CrewStep(objects, s, e).workers == s.crew.workers;
  }

  /** Once Stop is over and the workers are gone, a call that comes to wait is never answered. */
  lemma {:induction false} AbandonedForGood(objects: Objects, s: State, ch: Chan, es: seq<Event>)
    requires Safe(objects, s) && Abandoned(s, ch) && Runs(objects, s, es)
    ensures Abandoned(After(objects, s, es), ch) && After(objects, s, es).wait.chans[ch].sent == []
    decreases |es|
  {
    if es == [] {
      assert ChanOk(s.wait, ch);
    } else {
      StepSafe(objects, s, es[0]);
      StaysAbandoned(objects, s, ch, es[0]);
      AbandonedForGood(objects, Apply(objects, s, es[0]), ch, es[1..]);
    }
  }

  lemma RunStep(objects: Objects, s: State, es: seq<Event>)
    requires es != [] && Enabled(objects, s, es[0]) && Runs(objects, Apply(objects, s, es[0]), es[1..])
    ensures Runs(objects, s, es) && After(objects, s, es) == After(objects, Apply(objects, s, es[0]), es[1..])
  {
  }

  lemma RunCons(objects: Objects, s: State, t: State, e: Event, es: seq<Event>)
    requires Enabled(objects, s, e) && t == Apply(objects, s, e) && Runs(objects, t, es)
    ensures Runs(objects, s, [e] + es) && After(objects, s, [e] + es) == After(objects, t, es)
  {
    assert ([e] + es)[1..] == es;
    RunStep(objects, s, [e] + es);
  }

  function LateRun(w: nat, ch: Chan, task: Task): seq<Event> {
    [CloseStop] + ([Exit(w)] + ([CloseAll] + ([Ask(ch, task)] + [])))
  }

  lemma StopIs(objects: Objects, s: State)
    ensures Enabled(objects, s, CloseStop) && Apply(objects, s, CloseStop) == s.(stopped := true)
  {
  }

  lemma ExitIs(objects: Objects, s: State, w: nat)
    requires At(s, w, Idle) && s.stopped
    ensures Enabled(objects, s, Exit(w)) && Apply(objects, s, Exit(w)) == s.(crew := To(s.crew, w, Exited))
  {
  }

  lemma CloseAllIs(objects: Objects, s: State)
    requires s.stopped && !s.flushed
    ensures Enabled(objects, s, CloseAll)
    ensures var t := Apply(objects, s, CloseAll); t.crew == s.crew && t.wait == Flush(s.wait, Error) && t.stopped && t.flushed
  {
  }

  /** And that state is reachable: a call that asks after Stop queues its key for nobody. */
  lemma LateCallIsAbandoned(objects: Objects, files: Files, w: nat, ch: Chan, task: Task)
    requires task.priority == PRIORITY_EXPLICIT_READ
    ensures Runs(objects, Init({w}, files), LateRun(w, ch, task))
    ensures Abandoned(After(objects, Init({w}, files), LateRun(w, ch, task)), ch)
  {
    var s0 := Init({w}, files);
    StopIs(objects, s0);
    var s1 := s0.(stopped := true);
    ExitIs(objects, s1, w);
    var s2 := s1.(crew := To(s1.crew, w, Exited));
    CloseAllIs(objects, s2);
    var s3 := Apply(objects, s2, CloseAll);
    AskLate(objects, s3, ch, task);
    RunCons(objects, s3, Apply(objects, s3, Ask(ch, task)), Ask(ch, task), []);
    RunCons(objects, s2, s3, CloseAll, [Ask(ch, task)] + []);
    RunCons(objects, s1, s2, Exit(w), [CloseAll] + ([Ask(ch, task)] + []));
    RunCons(objects, s0, s1, CloseStop, [Exit(w)] + ([CloseAll] + ([Ask(ch, task)] + [])));
  }

  lemma AskLate(objects: Objects, s: State, ch: Chan, task: Task)
    requires ch !in s.wait.chans && s.stopped && s.flushed && forall w :: w in s.crew.workers ==> s.crew.workers[w].Exited?
    requires task.priority == PRIORITY_EXPLICIT_READ
    ensures Enabled(objects, s, Ask(ch, task)) && Abandoned(Apply(objects, s, Ask(ch, task)), ch)
  {
  }

  // ---- verification once, and not quite once ----

  predicate Verifying(c: Checks, key: Key, v: nat) {
    v in c.verifiers && !c.verifiers[v].Reporting? && c.verifiers[v].key == key
  }

  /** Whoever waits for a verification has one under way. */
  ghost predicate ChecksAttended(c: Checks) {
    forall k :: k in c.verifying.lists ==> exists v :: Verifying(c, k, v)
  }

  lemma StepAttendsChecks(objects: Objects, s: State, e: Event)
    requires ChecksAttended(s.checks) && Enabled(objects, s, e)
    ensures ChecksAttended(Apply(objects, s, e).checks)
  {
    if OnChecks(e) {
      ChecksStepAttends(objects, s, e);
    } else {
      SameVerifiersAttend(s.checks, Apply(objects, s, e).checks);
    }
  }

  lemma SameVerifiersAttend(c: Checks, d: Checks)
    requires ChecksAttended(c) && d.verifiers == c.verifiers && d.verifying.lists.Keys <= c.verifying.lists.Keys
    ensures ChecksAttended(d)
  {
    forall k | k in d.verifying.lists ensures exists v :: Verifying(d, k, v) {
      var v :| Verifying(c, k, v);
      assert Verifying(d, k, v);
    }
  }

  lemma ChecksStepAttends(objects: Objects, s: State, e: Event)
    requires ChecksAttended(s.checks) && OnChecks(e) && Enabled(objects, s, e)
    ensures ChecksAttended(ChecksStep(objects, s, e))
  {
    var c, d := s.checks, ChecksStep(objects, s, e);
    forall k | k in d.verifying.lists ensures exists v :: Verifying(d, k, v) {
      if k in c.verifying.lists {
        var v :| Verifying(c, k, v);
        assert Verifying(d, k, v);
      } else {
        assert Verifying(d, k, e.v);
      }
    }
  }

  lemma {:induction false} RunAttendsChecks(objects: Objects, s: State, es: seq<Event>)
    requires ChecksAttended(s.checks) && Runs(objects, s, es)
    ensures ChecksAttended(After(objects, s, es).checks)
    decreases |es|
  {
    if es != [] {
      StepAttendsChecks(objects, s, es[0]);
      RunAttendsChecks(objects, Apply(objects, s, es[0]), es[1..]);
    }
  }

  /** At most one verification is under way for a key. */
  ghost predicate AtMostOne(c: Checks) {
    forall k, u, v :: Verifying(c, k, u) && Verifying(c, k, v) ==> u == v
  }

  /** A call finds its key unverified and nobody waiting, while a verification of it is still under way. */
  ghost predicate StartsSecond(c: Checks, e: Event) {
    e.VerifyAsk? && e.key !in c.verified && e.key !in c.verifying.lists && exists u :: Verifying(c, e.key, u)
  }

  /** How an event changes the set of verifications under way: one may start, and one may end. */
  predicate VerifyingNext(c: Checks, e: Event, k: Key, v: nat) {
    || (Verifying(c, k, v) && !(e.VerifyMark? && e.v == v))
    || (e.VerifyAsk? && e.v == v && e.key == k && k !in c.verified && k !in c.verifying.lists)
  }

  lemma VerifyingAfter(objects: Objects, s: State, e: Event, k: Key, v: nat)
    requires Enabled(objects, s, e)
    ensures Verifying(Apply(objects, s, e).checks, k, v) <==> VerifyingNext(s.checks, e, k, v)
  {
    if OnChecks(e) { ChecksVerifying(objects, s, e, k, v); }
  }

  lemma ChecksVerifying(objects: Objects, s: State, e: Event, k: Key, v: nat)
    requires OnChecks(e) && Enabled(objects, s, e)
    ensures Verifying(ChecksStep(objects, s, e), k, v) <==> VerifyingNext(s.checks, e, k, v)
  {
  }

  /** An event leads to two verifications of one key exactly when it is such a call. */
  lemma SecondIff(objects: Objects, s: State, e: Event)
    requires AtMostOne(s.checks) && Enabled(objects, s, e)
    ensures AtMostOne(Apply(objects, s, e).checks) <==> !StartsSecond(s.checks, e)
  {
    var d := Apply(objects, s, e).checks;
    forall k, v ensures Verifying(d, k, v) <==> VerifyingNext(s.checks, e, k, v) {
      VerifyingAfter(objects, s, e, k, v);
    }
    if StartsSecond(s.checks, e) {
      var u :| Verifying(s.checks, e.key, u);
      assert Verifying(d, e.key, u) && Verifying(d, e.key, e.v) && u != e.v;
    }
  }

  ghost predicate OnceThroughout(objects: Objects, s: State, es: seq<Event>)
    requires Runs(objects, s, es)
    decreases |es|
  {
    AtMostOne(s.checks) && (es == [] || OnceThroughout(objects, Apply(objects, s, es[0]), es[1..]))
  }

  ghost predicate NoSecond(objects: Objects, s: State, es: seq<Event>)
    requires Runs(objects, s, es)
    decreases |es|
  {
    es == [] || (!StartsSecond(s.checks, es[0]) && NoSecond(objects, Apply(objects, s, es[0]), es[1..]))
  }

  /** verifyBlobOnce is what its name says throughout a run exactly when no call of the run comes to its
      key after the last waiter has left and before the verification is done. */
  lemma {:induction false} VerifiesOnceIff(objects: Objects, s: State, es: seq<Event>)
    requires AtMostOne(s.checks) && Runs(objects, s, es)
    ensures OnceThroughout(objects, s, es) <==> NoSecond(objects, s, es)
    decreases |es|
  {
    if es != [] {
      SecondIff(objects, s, es[0]);
      if !StartsSecond(s.checks, es[0]) { VerifiesOnceIff(objects, Apply(objects, s, es[0]), es[1..]); }
    }
  }

  /** The event leaves a verification without anyone who waits for it. */
  predicate LastLeaves(c: Checks, e: Event) {
    match e
    case VerifyCancel(ch) => ch in c.verifying.chans && Waiters(c.verifying.lists, c.verifying.chans[ch].key) == [ch]
    case CloseAll => c.verifying.lists != map[]
    case _ => false
  }

  ghost predicate NoneLeaves(objects: Objects, s: State, es: seq<Event>)
    requires Runs(objects, s, es)
    decreases |es|
  {
    es == [] || (!LastLeaves(s.checks, es[0]) && NoneLeaves(objects, Apply(objects, s, es[0]), es[1..]))
  }

  /** One verification at most runs for a key, and someone waits for it. */
  ghost predicate VerifiedOnce(c: Checks) {
    forall k, u, v :: Verifying(c, k, u) && Verifying(c, k, v) ==> u == v && k in c.verifying.lists
  }

  lemma KeepsListed(s: Waits, ch: Chan)
    requires WaitLists.Inv(s) && ch in s.chans && Waiters(s.lists, s.chans[ch].key) != [ch]
    ensures Leave(s, ch).lists.Keys == s.lists.Keys
  {
    var key := s.chans[ch].key;
    if ch in Waiters(s.lists, key) {
      assert ListOk(s, key);
      WithoutKeepsTheRest(s.lists[key], ch);
    }
  }

  /** Which keys are waited for after an event at which no last waiter leaves. */
  lemma ListedAfter(objects: Objects, s: State, e: Event, k: Key)
    requires WaitLists.Inv(s.checks.verifying) && Enabled(objects, s, e) && !LastLeaves(s.checks, e)
    requires k in s.checks.verifying.lists && !(e.VerifyMark? && s.checks.verifiers[e.v].key == k)
    ensures k in Apply(objects, s, e).checks.verifying.lists
  {
    if OnChecks(e) { ChecksListed(objects, s, e, k); }
  }

  lemma ChecksListed(objects: Objects, s: State, e: Event, k: Key)
    requires WaitLists.Inv(s.checks.verifying) && OnChecks(e) && Enabled(objects, s, e) && !LastLeaves(s.checks, e)
    requires k in s.checks.verifying.lists && !(e.VerifyMark? && s.checks.verifiers[e.v].key == k)
    ensures k in ChecksStep(objects, s, e).verifying.lists
  {
    if e.VerifyCancel? { KeepsListed(s.checks.verifying, e.ch); }
  }

  lemma StaysOnce(objects: Objects, s: State, e: Event, k: Key, v: nat)
    requires VerifiedOnce(s.checks) && WaitLists.Inv(s.checks.verifying) && Enabled(objects, s, e)
    requires !LastLeaves(s.checks, e) && Verifying(Apply(objects, s, e).checks, k, v)
    ensures k in Apply(objects, s, e).checks.verifying.lists
  {
    VerifyingAfter(objects, s, e, k, v);
    if Verifying(s.checks, k, v) {
      if e.VerifyMark? { assert Verifying(s.checks, s.checks.verifiers[e.v].key, e.v); }
      ListedAfter(objects, s, e, k);
    }
  }

  /** A verification loses its last waiter at exactly these events. */
  lemma StepVerifiesOnce(objects: Objects, s: State, e: Event)
    requires VerifiedOnce(s.checks) && ChecksAttended(s.checks) && WaitLists.Inv(s.checks.verifying) && Enabled(objects, s, e)
    ensures VerifiedOnce(Apply(objects, s, e).checks) <==> !LastLeaves(s.checks, e)
  {
    var d := Apply(objects, s, e).checks;
    if LastLeaves(s.checks, e) {
      LeavesUnwaited(objects, s, e);
    } else {
      forall k, u, v | Verifying(d, k, u) && Verifying(d, k, v) ensures u == v && k in d.verifying.lists {
        StaysOnce(objects, s, e, k, v);
        VerifyingAfter(objects, s, e, k, u);
        VerifyingAfter(objects, s, e, k, v);
      }
    }
  }

  lemma LeavesUnwaited(objects: Objects, s: State, e: Event)
    requires ChecksAttended(s.checks) && Enabled(objects, s, e) && LastLeaves(s.checks, e)
    ensures !VerifiedOnce(Apply(objects, s, e).checks)
  {
    var c, d := s.checks, Apply(objects, s, e).checks;
    var k :| k in c.verifying.lists && (e.VerifyCancel? ==> k == c.verifying.chans[e.ch].key);
    var v :| Verifying(c, k, v);
    VerifyingAfter(objects, s, e, k, v);
    assert Verifying(d, k, v) && k !in d.verifying.lists;
  }

  ghost predicate WaitedThroughout(objects: Objects, s: State, es: seq<Event>)
    requires Runs(objects, s, es)
    decreases |es|
  {
    VerifiedOnce(s.checks) && (es == [] || WaitedThroughout(objects, Apply(objects, s, es[0]), es[1..]))
  }

  /** Every verification has someone who waits for it, throughout a run and one at a time, exactly when
      no cancellation and no Stop takes the last one away. */
  lemma {:induction false} WaitedIff(objects: Objects, s: State, es: seq<Event>)
    requires Safe(objects, s) && VerifiedOnce(s.checks) && ChecksAttended(s.checks) && Runs(objects, s, es)
    ensures WaitedThroughout(objects, s, es) <==> NoneLeaves(objects, s, es)
    decreases |es|
  {
    if es != [] {
      StepSafe(objects, s, es[0]);
      StepAttendsChecks(objects, s, es[0]);
      StepVerifiesOnce(objects, s, es[0]);
      if !LastLeaves(s.checks, es[0]) { WaitedIff(objects, Apply(objects, s, es[0]), es[1..]); }
    }
  }

  function TwiceRun(key: Key): seq<Event> {
    [VerifyAsk(0, key, 0)] + ([VerifyCancel(0)] + ([VerifyAsk(1, key, 1)] + []))
  }

  /** Otherwise two verifications of one key can run at a time: the first goes on after its only
      waiter cancelled, and the next caller, finding no waiter, starts another. */
  lemma VerifiesTwice(objects: Objects, workers: set<nat>, files: Files, key: Key)
    ensures Runs(objects, Init(workers, files), TwiceRun(key))
    ensures var c := After(objects, Init(workers, files), TwiceRun(key)).checks; Verifying(c, key, 0) && Verifying(c, key, 1)
  {
    var s0 := Init(workers, files);
    FirstAsks(objects, s0, 0, key, 0);
    var s1 := Apply(objects, s0, VerifyAsk(0, key, 0));
    OnlyLeaves(objects, s1, 0, key);
    var s2 := Apply(objects, s1, VerifyCancel(0));
    FirstAsks(objects, s2, 1, key, 1);
    var s3 := Apply(objects, s2, VerifyAsk(1, key, 1));
    RunCons(objects, s2, s3, VerifyAsk(1, key, 1), []);
    RunCons(objects, s1, s2, VerifyCancel(0), [VerifyAsk(1, key, 1)] + []);
    RunCons(objects, s0, s1, VerifyAsk(0, key, 0), [VerifyCancel(0)] + ([VerifyAsk(1, key, 1)] + []));
  }

  lemma FirstAsks(objects: Objects, s: State, ch: Chan, key: Key, v: nat)
    requires key !in s.checks.verified && key !in s.checks.verifying.lists
    requires ch !in s.checks.verifying.chans && v !in s.checks.verifiers
    ensures Enabled(objects, s, VerifyAsk(ch, key, v))
    ensures var c, d := s.checks, Apply(objects, s, VerifyAsk(ch, key, v)).checks;
      && d.verified == c.verified && d.verifiers == c.verifiers[v := Reading(key)]
      && d.verifying.lists == c.verifying.lists[key := [ch]] && d.verifying.chans == c.verifying.chans[ch := ChanState(key, Listed, [], false)]
  {
    assert Waiters(s.checks.verifying.lists, key) + [ch] == [ch];
  }

  lemma OnlyLeaves(objects: Objects, s: State, ch: Chan, key: Key)
    requires ch in s.checks.verifying.chans && s.checks.verifying.chans[ch].key == key
    requires key in s.checks.verifying.lists && s.checks.verifying.lists[key] == [ch]
    ensures Enabled(objects, s, VerifyCancel(ch))
    ensures var c, d := s.checks, Apply(objects, s, VerifyCancel(ch)).checks;
      && d.verified == c.verified && d.verifiers == c.verifiers
      && d.verifying.lists == c.verifying.lists - {key} && d.verifying.chans.Keys == c.verifying.chans.Keys
  {
  }
}
