/** batchPool and the retries of BlobToCache and ReadBlob: which processes may be reused, and what a
    caller gets whatever happened to the processes before. */
module BatchPool {
  import opened Text
  import opened BatchFraming

  /** One attempt's luck: whether a new process can be started and the request written, how much of the
      response arrives before the process dies, whether the context ends first, and the disk. */
  datatype Attempt = Attempt(spawns: bool, writes: bool, arrives: nat, cancelled: bool, disk: Disk)

  /** What reaches the reader of a response. */
  function Arrives(git: Git, oid: string, a: Attempt): string {
    var all := Render(git, oid);
    if a.arrives < |all| then all[..a.arrives] else all
  }

  datatype Reply = Reply(outcome: Outcome, cancelled: bool)

  function FetchReply(git: Git, oid: string, a: Attempt): Reply {
    if a.cancelled then Reply(Failed, true)
    else if !a.writes then Reply(Failed, false)
    else Reply(FetchStream(Arrives(git, oid, a), a.disk).0, false)
  }

  function ReadReply(git: Git, oid: string, a: Attempt, maxBytes: int): Reply {
    if a.cancelled then Reply(Failed, true)
    else if !a.writes then Reply(Failed, false)
    else Reply(ReadStream(Arrives(git, oid, a), maxBytes).0, false)
  }

  /** A `git cat-file --batch` process: the bytes of its output not yet read, and whether it was waited for. */
  class Proc {
    var unread: string
    var reaped: bool

    constructor ()
      ensures unread == "" && !reaped
    {
      unread, reaped := "", false;
    }

    predicate Alive()
      reads this
    {
      !reaped
    }

    method Close()
      modifies this
      ensures reaped && unread == old(unread)
    {
      reaped := true;
    }

    /** fetchBatchToFile: on cancellation the process is killed. */
    method FetchToFile(git: Git, oid: string, a: Attempt) returns (r: Reply)
      requires GitOk(git) && IsWord(oid) && Alive() && unread == ""
      modifies this
      ensures r == FetchReply(git, oid, a)
      ensures r.outcome.Got? ==> Alive() && unread == "" && oid in git && r.outcome.data == git[oid].content
      ensures r.cancelled ==> !Alive()
    {
      if a.cancelled {
        Close();
        return Reply(Failed, true);
      }
      if !a.writes { return Reply(Failed, false); }
      NoWrongBlob(git, oid, Arrives(git, oid, a), a.disk, 0);
      unread := unread + Arrives(git, oid, a);
      assert unread == Arrives(git, oid, a);
      var (outcome, rest) := FetchStream(unread, a.disk);
      unread := rest;
      return Reply(outcome, false);
    }

    method ReadBlob(git: Git, oid: string, a: Attempt, maxBytes: int) returns (r: Reply)
      requires GitOk(git) && IsWord(oid) && Alive() && unread == ""
      modifies this
      ensures r == ReadReply(git, oid, a, maxBytes)
      ensures r.outcome.Got? ==> Alive() && unread == "" && oid in git && r.outcome.data == git[oid].content && |r.outcome.data| <= maxBytes
    {
      if a.cancelled {
        Close();
        return Reply(Failed, true);
      }
      if !a.writes { return Reply(Failed, false); }
      NoWrongBlob(git, oid, Arrives(git, oid, a), a.disk, maxBytes);
      unread := unread + Arrives(git, oid, a);
      assert unread == Arrives(git, oid, a);
      var (outcome, rest) := ReadStream(unread, maxBytes);
      unread := rest;
      return Reply(outcome, false);
    }
  }

  class Pool {
    var free: seq<Proc>
    var maxSize: nat
    /** The processes that callers hold. */
    ghost var lent: set<Proc>

    constructor (maxSize: nat)
      ensures Valid() && free == [] && lent == {} && this.maxSize == maxSize
    {
      this.maxSize := maxSize;
      free := [];
      lent := {};
    }

    /** A free process stands at a response boundary, is alive, and is nobody's. */
    ghost predicate Ready(p: Proc)
      reads this`lent, p
    {
      p.unread == "" && p.Alive() && p !in lent
    }

    ghost predicate Valid()
      reads this, free
    {
      && |free| <= maxSize
      && (forall i, j :: 0 <= i < j < |free| ==> free[i] != free[j])
      && (forall p :: p in free ==> Ready(p))
    }

    method Acquire(spawns: bool) returns (b: Proc?)
      requires Valid()
      modifies this`free, this`lent
      ensures Valid() && maxSize == old(maxSize)
      ensures b == null <==> old(free) == [] && !spawns
      ensures b == null ==> free == old(free) && lent == old(lent)
      ensures b != null ==> b.Alive() && b.unread == "" && b !in old(lent) && b !in free && lent == old(lent) + {b}
      ensures b != null ==> if old(free) == [] then fresh(b) && free == [] else free == old(free)[..|old(free)| - 1] && b in old(free)
    {
      var n := |free|;
      if n > 0 {
        b := free[n - 1];
        assert Ready(b);
        free := free[..n - 1];
        lent := lent + {b};
        assert forall p :: p in free ==> p in old(free) && old(Ready(p));
        if b.Alive() { return b; }
        assert false;
      }
      if !spawns { return null; }
      b := new Proc();
      lent := lent + {b};
    }

    /** Back to the pool if it is alive and there is room; closed otherwise. */
    method Release(b: Proc)
      requires Valid() && b in lent && b !in free && (b.Alive() ==> b.unread == "")
      modifies this`free, this`lent, b
      ensures Valid() && maxSize == old(maxSize) && lent == old(lent) - {b}
      ensures free == if old(b.Alive()) && |old(free)| < maxSize then old(free) + [b] else old(free)
      ensures b !in free ==> !b.Alive()
    {
      lent := lent - {b};
      if !b.Alive() {
        b.Close();
        return;
      }
      if |free| < maxSize {
        free := free + [b];
        return;
      }
      b.Close();
    }

    /** The caller closes or kills a process it holds and forgets it. */
    method Discard(b: Proc)
      requires Valid() && b in lent && b !in free
      modifies this`lent, b
      ensures Valid() && maxSize == old(maxSize) && lent == old(lent) - {b} && free == old(free) && !b.Alive()
    {
      b.Close();
      lent := lent - {b};
    }

    method SetMaxSize(n: nat)
      requires Valid()
      modifies this, free
      ensures Valid() && maxSize == n && lent == old(lent)
      ensures free == if |old(free)| > n then old(free)[..n] else old(free)
      ensures forall i :: |free| <= i < |old(free)| ==> !old(free)[i].Alive()
    {
      var extras: seq<Proc> := [];
      maxSize := n;
      if |free| > n {
        extras := free[n..];
        free := free[..n];
      }
      CloseEach(extras);
    }

    method CloseAll()
      requires Valid()
      modifies this, free
      ensures Valid() && free == [] && lent == old(lent) && maxSize == old(maxSize)
      ensures forall p :: p in old(free) ==> !p.Alive()
    {
      CloseEach(free);
      free := [];
    }

    static method CloseEach(ps: seq<Proc>)
      modifies ps
      ensures forall p :: p in ps ==> !p.Alive()
    {
      for i := 0 to |ps|
        invariant forall j :: 0 <= j < i ==> !ps[j].Alive()
      {
        ps[i].Close();
      }
    }

    /** One attempt of BlobToCache on a process it acquired. */
    method FetchOnce(b: Proc, git: Git, oid: string, a: Attempt) returns (r: Reply)
      requires Valid() && GitOk(git) && IsWord(oid) && b in lent && b !in free && b.Alive() && b.unread == ""
      modifies this`free, this`lent, b
      ensures Valid() && maxSize == old(maxSize) && lent == old(lent) - {b}
      ensures r == FetchReply(git, oid, a) && (r.outcome.Got? ==> oid in git && r.outcome.data == git[oid].content)
      ensures !r.outcome.Got? ==> free == old(free)
    {
      r := b.FetchToFile(git, oid, a);
      if r.outcome.Got? {
        Release(b);
      } else if r.cancelled {
        lent := lent - {b};
      } else {
        Discard(b);
      }
    }

    /** BlobToCache: nothing is tried once the context has expired; a failed attempt is retried once, on
        another process, unless it was cancelled. */
    method BlobToCache(git: Git, oid: string, expired: bool, first: Attempt, second: Attempt) returns (r: Outcome)
      requires Valid() && GitOk(git) && IsWord(oid)
      modifies this`free, this`lent, free
      ensures Valid() && maxSize == old(maxSize) && lent == old(lent)
      ensures r == if expired then Failed
        else BlobResult(|old(free)|, first.spawns, second.spawns, FetchReply(git, oid, first), FetchReply(git, oid, second))
      ensures r.Got? ==> oid in git && r.data == git[oid].content
      ensures expired ==> free == old(free)
    {
      if expired { return Failed; }
      var b := Acquire(first.spawns);
      if b == null { return Failed; }
      var reply := FetchOnce(b, git, oid, first);
      if reply.outcome.Got? || reply.cancelled { return reply.outcome; }
      b := Acquire(second.spawns);
      if b == null { return Failed; }
      reply := FetchOnce(b, git, oid, second);
      return reply.outcome;
    }

    method ReadOnce(b: Proc, git: Git, oid: string, a: Attempt, maxBytes: int) returns (r: Reply)
      requires Valid() && GitOk(git) && IsWord(oid) && b in lent && b !in free && b.Alive() && b.unread == ""
      modifies this`free, this`lent, b
      ensures Valid() && maxSize == old(maxSize) && lent == old(lent) - {b}
      ensures r == ReadReply(git, oid, a, maxBytes)
      ensures r.outcome.Got? ==> oid in git && r.outcome.data == git[oid].content && |r.outcome.data| <= maxBytes
      ensures !r.outcome.Got? ==> free == old(free)
    {
      r := b.ReadBlob(git, oid, a, maxBytes);
      if r.outcome.Got? {
        Release(b);
      } else {
        // an oversize blob is left unread, so this process is killed too
        Discard(b);
      }
    }

    /** ReadBlob: a failure is retried once, a cancelled read included; an oversize blob is not. */
    method ReadBlob(git: Git, oid: string, maxBytes: int, first: Attempt, second: Attempt) returns (r: Outcome)
      requires Valid() && GitOk(git) && IsWord(oid)
      modifies this`free, this`lent, free
      ensures Valid() && maxSize == old(maxSize) && lent == old(lent)
      ensures r == if maxBytes < 0 then Failed
        else ReadResult(|old(free)|, first.spawns, second.spawns, ReadReply(git, oid, first, maxBytes), ReadReply(git, oid, second, maxBytes))
      ensures r.Got? ==> oid in git && r.data == git[oid].content && |r.data| <= maxBytes
    {
      if maxBytes < 0 { return Failed; }
      var b := Acquire(first.spawns);
      if b == null { return Failed; }
      var reply := ReadOnce(b, git, oid, first, maxBytes);
      if !reply.outcome.Failed? { return reply.outcome; }
      b := Acquire(second.spawns);
      if b == null { return Failed; }
      reply := ReadOnce(b, git, oid, second, maxBytes);
      return reply.outcome;
    }
  }

  /** The first attempt needs a free process or a new one, and so does the second. */
  function BlobResult(free: nat, spawns: bool, respawns: bool, first: Reply, second: Reply): Outcome {
    if free == 0 && !spawns then Failed
    else if first.outcome.Got? || first.cancelled then first.outcome
    else if free <= 1 && !respawns then Failed
    else second.outcome
  }

  function ReadResult(free: nat, spawns: bool, respawns: bool, first: Reply, second: Reply): Outcome {
    if free == 0 && !spawns then Failed
    else if !first.outcome.Failed? then first.outcome
    else if free <= 1 && !respawns then Failed
    else second.outcome
  }

  /** The request is written, the whole response arrives, the disk obliges. */
  predicate Undisturbed(git: Git, oid: string, a: Attempt) {
    !a.cancelled && a.writes && a.arrives >= |Render(git, oid)| && a.disk == Disk(false, false, false)
  }

  lemma WholeArrives(git: Git, oid: string, a: Attempt)
    ensures Arrives(git, oid, a) <= Render(git, oid)
    ensures Arrives(git, oid, a) == Render(git, oid) <==> a.arrives >= |Render(git, oid)|
  {
  }

  lemma FetchGets(git: Git, oid: string, a: Attempt)
    requires GitOk(git) && IsWord(oid)
    ensures FetchReply(git, oid, a).outcome.Got? <==> oid in git && Undisturbed(git, oid, a)
    ensures FetchReply(git, oid, a).cancelled == a.cancelled
  {
    WholeArrives(git, oid, a);
    NoWrongBlob(git, oid, Arrives(git, oid, a), a.disk, 0);
  }

  /** A blob is got exactly when git has it and one of the attempts that are made is undisturbed; each needs
      a free process or a new one, and the second is made unless the first was cancelled. */
  lemma GotExactlyWhenUndisturbed(git: Git, oid: string, first: Attempt, second: Attempt, free: nat)
    requires GitOk(git) && IsWord(oid)
    ensures BlobResult(free, first.spawns, second.spawns, FetchReply(git, oid, first), FetchReply(git, oid, second)).Got? <==>
      oid in git && (free > 0 || first.spawns)
      && (Undisturbed(git, oid, first) || (!first.cancelled && (free > 1 || second.spawns) && Undisturbed(git, oid, second)))
  {
    FetchGets(git, oid, first);
    FetchGets(git, oid, second);
  }

  /** The same for an attempt that reads into memory, where the disk does not matter and the size does. */
  predicate Readable(git: Git, oid: string, a: Attempt, maxBytes: int) {
    && oid in git && |git[oid].content| <= maxBytes && |git[oid].content| <= MAX_READ_BLOB_BYTES
    && !a.cancelled && a.writes && a.arrives >= |Render(git, oid)|
  }

  lemma ReadGets(git: Git, oid: string, a: Attempt, maxBytes: int)
    requires GitOk(git) && IsWord(oid)
    ensures ReadReply(git, oid, a, maxBytes).outcome.Got? <==> Readable(git, oid, a, maxBytes)
    ensures ReadReply(git, oid, a, maxBytes).outcome.TooLarge? ==>
      oid in git && (|git[oid].content| > maxBytes || |git[oid].content| > MAX_READ_BLOB_BYTES)
  {
    WholeArrives(git, oid, a);
    NoWrongBlob(git, oid, Arrives(git, oid, a), a.disk, maxBytes);
    if ReadReply(git, oid, a, maxBytes).outcome.TooLarge? { TooLargeIsSize(git, oid, Arrives(git, oid, a), maxBytes); }
  }

  /** A read is refused for its size only when the object is that large. */
  lemma TooLargeIsSize(git: Git, oid: string, arrived: string, maxBytes: int)
    requires GitOk(git) && IsWord(oid) && arrived <= Render(git, oid) && ReadStream(arrived, maxBytes).0.TooLarge?
    ensures oid in git && (|git[oid].content| > maxBytes || |git[oid].content| > MAX_READ_BLOB_BYTES)
  {
    var body := ReadSizeOfResponse(git, oid, arrived);
  }

  lemma ReadExactlyWhenUndisturbed(git: Git, oid: string, first: Attempt, second: Attempt, free: nat, maxBytes: int)
    requires GitOk(git) && IsWord(oid)
    ensures ReadResult(free, first.spawns, second.spawns, ReadReply(git, oid, first, maxBytes), ReadReply(git, oid, second, maxBytes)).Got? <==>
      (free > 0 || first.spawns)
      && (Readable(git, oid, first, maxBytes) || ((free > 1 || second.spawns) && Readable(git, oid, second, maxBytes)))
  {
    ReadGets(git, oid, first, maxBytes);
    ReadGets(git, oid, second, maxBytes);
  }
}
