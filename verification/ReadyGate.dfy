/** ReadyGate: a gate that can be marked ready or failed and be reset, with one channel per epoch
    for those who wait.  The class is the code; the machine after it lets calls interleave. */
module ReadyGates {
  import opened Wrappers

  type Error = string

  const ERR_REPO_NOT_READY: Error := "repo is not ready"

  /** The gate's fields; channels are numbered, and `closes` counts how often each was closed. */
  datatype Gate = Gate(ready: bool, err: Option<Error>, done: nat, closed: bool, closes: seq<nat>)

  predicate Valid(g: Gate) {
    && !(g.ready && g.err.Some?)
    && (g.closed <==> g.ready || g.err.Some?)
    && g.done + 1 == |g.closes|
    && (forall i :: 0 <= i < g.done ==> g.closes[i] == 1)
    && g.closes[g.done] == if g.closed then 1 else 0
  }

  // ---- what each call makes of the gate ----

  function NewGate(ready: bool): Gate { Gate(ready, None, 0, ready, [if ready then 1 else 0]) }

  function AfterClose(g: Gate): Gate {
    if g.closed || g.done >= |g.closes| then g
    else g.(closed := true, closes := g.closes[g.done := g.closes[g.done] + 1])
  }

  function AfterReset(g: Gate): Gate {
    if !g.ready && g.err.None? then g else Gate(false, None, |g.closes|, false, g.closes + [0])
  }

  function AfterReady(g: Gate): Gate {
    if g.ready then g else AfterClose(g.(ready := true, err := None))
  }

  function AfterFailed(g: Gate, err: Option<Error>): Gate {
    var e := if err.None? then Some(ERR_REPO_NOT_READY) else err;
    if g.err.Some? then g.(err := e)
    else if g.ready then g
    else AfterClose(g.(err := e))
  }

  datatype Answer = Nil | Err(err: Error)

  /** What a locked section of Wait finds settled. */
  function Verdict(g: Gate): Option<Answer> {
    if g.ready then Some(Nil) else if g.err.Some? then Some(Err(g.err.value)) else None
  }

  class ReadyGate {
    var ready: bool
    var err: Option<Error>
    var done: nat
    var closed: bool
    var closes: seq<nat>

    constructor (ready: bool)
      ensures State() == NewGate(ready) && Valid(State())
    {
      this.ready, err, done, closed, closes := ready, None, 0, false, [0];
      if ready {
        closes := [1];
        closed := true;
      }
    }

    function State(): Gate
      reads this
    {
      Gate(ready, err, done, closed, closes)
    }

    method Reset()
      requires Valid(State())
      modifies this
      ensures State() == AfterReset(old(State())) && Valid(State()) && !ready && err.None?
    {
      if !ready && err.None? { return; }
      ready := false;
      err := None;
      done := |closes|;
      closes := closes + [0];
      closed := false;
    }

    method MarkReady()
      requires Valid(State())
      modifies this
      ensures State() == AfterReady(old(State())) && Valid(State()) && ready
    {
      if ready { return; }
      ready := true;
      err := None;
      if !closed {
        closes := closes[done := closes[done] + 1];
        closed := true;
      }
    }

    method MarkFailed(e: Option<Error>)
      requires Valid(State())
      modifies this
      ensures State() == AfterFailed(old(State()), e) && Valid(State()) && (ready || err.Some?)
    {
      var failure := if e.None? then Some(ERR_REPO_NOT_READY) else e;
      if err.Some? {
        err := failure;
        return;
      }
      if ready { return; }
      err := failure;
      if !closed {
        closes := closes[done := closes[done] + 1];
        closed := true;
      }
    }

    /** The first locked section of Wait: an answer, or the channel to wait on. */
    method Enter() returns (answer: Option<Answer>, on: nat)
      ensures answer == Verdict(State()) && on == done
    {
      if ready { return Some(Nil), done; }
      if err.Some? { return Some(Err(err.value)), done; }
      return None, done;
    }

    /** The last one, after the channel was found closed. */
    method Leave() returns (answer: Answer)
      ensures answer == (if Verdict(State()).Some? then Verdict(State()).value else Err(ERR_REPO_NOT_READY))
    {
      if ready { return Nil; }
      if err.Some? { return Err(err.value); }
      return Err(ERR_REPO_NOT_READY);
    }
  }

  // ---- any number of waiters and markers ----

  /** `sawReady`: the gate was ready at some moment since the call began. */
  datatype Waiter = Waiting(on: nat, sawReady: bool) | Woken(sawReady: bool) | Returned(answer: Answer, sawReady: bool)

  datatype System = System(gate: Gate, waiters: map<nat, Waiter>)

  datatype Event =
    | Ready
    | Fail(err: Option<Error>)
    | ResetGate
    | Begin(w: nat)
    | Cancel(w: nat, cause: Error)
    | Wake(w: nat)
    | End(w: nat)

  predicate ChannelClosed(g: Gate, ch: nat) { ch < |g.closes| && g.closes[ch] > 0 }

  predicate Enabled(s: System, e: Event) {
    match e
    case Begin(w) => w !in s.waiters
    case Cancel(w, _) => w in s.waiters && s.waiters[w].Waiting?
    case Wake(w) => w in s.waiters && s.waiters[w].Waiting? && ChannelClosed(s.gate, s.waiters[w].on)
    case End(w) => w in s.waiters && s.waiters[w].Woken?
    case _ => true
  }

  function Seen(w: Waiter): Waiter {
    match w
    case Waiting(on, _) => Waiting(on, true)
    case Woken(_) => Woken(true)
    case Returned(_, _) => w
  }

  function SetGate(s: System, g: Gate): System {
    System(g, if g.ready then map w | w in s.waiters :: Seen(s.waiters[w]) else s.waiters)
  }

  function Apply(s: System, e: Event): System
    requires Enabled(s, e)
  {
    match e
    case Ready => SetGate(s, AfterReady(s.gate))
    case Fail(err) => SetGate(s, AfterFailed(s.gate, err))
    case ResetGate => SetGate(s, AfterReset(s.gate))
    case Begin(w) =>
      s.(waiters := s.waiters[w := match Verdict(s.gate)
        case Some(answer) => Returned(answer, s.gate.ready)
        case None => Waiting(s.gate.done, false)])
    case Cancel(w, cause) => s.(waiters := s.waiters[w := Returned(Err(cause), s.waiters[w].sawReady)])
    case Wake(w) => s.(waiters := s.waiters[w := Woken(s.waiters[w].sawReady)])
    case End(w) =>
      s.(waiters := s.waiters[w := match Verdict(s.gate)
        case Some(answer) => Returned(answer, s.waiters[w].sawReady)
        case None => Returned(Err(ERR_REPO_NOT_READY), s.waiters[w].sawReady)])
  }

  predicate WaiterOk(g: Gate, w: Waiter) {
    match w
    case Waiting(on, saw) => on <= g.done && (g.ready ==> saw)
    case Woken(saw) => g.ready ==> saw
    case Returned(answer, saw) => answer == Nil ==> saw
  }

  predicate Inv(s: System) {
    Valid(s.gate) && forall w :: w in s.waiters ==> WaiterOk(s.gate, s.waiters[w])
  }

  /** A channel is closed when its epoch ends, and only once; it is replaced only when closed. */
  lemma CallsKeepGate(g: Gate, err: Option<Error>)
    requires Valid(g)
    ensures Valid(AfterReset(g)) && Valid(AfterReady(g)) && Valid(AfterFailed(g, err))
    ensures AfterReset(g).done > g.done ==> ChannelClosed(g, g.done)
    ensures AfterReady(g).done == g.done == AfterFailed(g, err).done <= AfterReset(g).done
    ensures !AfterReset(g).ready && AfterReset(g).err.None? && AfterReady(g).ready && AfterFailed(g, err).ready == g.ready
  {
  }

  lemma StepKeeps(s: System, e: Event)
    requires Inv(s) && Enabled(s, e)
    ensures Inv(Apply(s, e))
  {
    CallsKeepGate(s.gate, if e.Fail? then e.err else None);
    var t := Apply(s, e);
    forall w | w in t.waiters ensures WaiterOk(t.gate, t.waiters[w]) {
      if w in s.waiters { assert WaiterOk(s.gate, s.waiters[w]); }
    }
  }

  predicate Runs(s: System, es: seq<Event>)
    decreases |es|
  {
    es == [] || (Enabled(s, es[0]) && Runs(Apply(s, es[0]), es[1..]))
  }

  function After(s: System, es: seq<Event>): System
    requires Runs(s, es)
    decreases |es|
  {
    if es == [] then s else After(Apply(s, es[0]), es[1..])
  }

  lemma {:induction false} RunKeeps(s: System, es: seq<Event>)
    requires Inv(s) && Runs(s, es)
    ensures Inv(After(s, es)) && After(s, es).gate.done >= s.gate.done
    decreases |es|
  {
    if es != [] {
      StepKeeps(s, es[0]);
      CallsKeepGate(s.gate, if es[0].Fail? then es[0].err else None);
      RunKeeps(Apply(s, es[0]), es[1..]);
    }
  }

  /** Over all runs: never ready and failed at once, every channel closed at most once and the current
      one exactly when the gate is settled, and Wait says nil only if the gate was ready during the call. */
  lemma GateIsSound(ready: bool, es: seq<Event>, w: nat)
    requires Runs(System(NewGate(ready), map[]), es)
    ensures var s := After(System(NewGate(ready), map[]), es);
      && !(s.gate.ready && s.gate.err.Some?)
      && (forall ch :: 0 <= ch < |s.gate.closes| ==> s.gate.closes[ch] <= 1)
      && (ChannelClosed(s.gate, s.gate.done) <==> s.gate.ready || s.gate.err.Some?)
      && (w in s.waiters && s.waiters[w].Returned? && s.waiters[w].answer == Nil ==> s.waiters[w].sawReady)
  {
    RunKeeps(System(NewGate(ready), map[]), es);
    var s := After(System(NewGate(ready), map[]), es);
    if w in s.waiters { assert WaiterOk(s.gate, s.waiters[w]); }
  }

  /** Nobody hangs on an abandoned channel: whoever still waits can be woken, or waits on the channel
      the gate will close when it is next marked, either way. */
  lemma NobodyIsAbandoned(s: System, w: nat, err: Option<Error>)
    requires Inv(s) && w in s.waiters && s.waiters[w].Waiting?
    ensures Enabled(s, Wake(w)) <==> s.waiters[w].on < s.gate.done || s.gate.closed
    ensures Enabled(Apply(s, Ready), Wake(w)) && Enabled(Apply(s, Fail(err)), Wake(w))
  {
    assert WaiterOk(s.gate, s.waiters[w]);
  }
}
