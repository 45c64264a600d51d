/**
  A semaphore or mutex as the release routines change it while they hold its lock:
  the loop of `ki_signal` hands tokens to queued waiters, first come first served.
 */
module DispatchObject {
  import opened Queues
  import opened Options
  import opened Dispatcher
  import opened DispatcherInvariant

  datatype Attempt = SatisfiedPreWait | SatisfiedWait | AlreadySatisfied

  /** How many waiters get a token. */
  function Handed(queue: seq<Tid>, signalled: int): nat {
    if signalled <= 0 then 0 else if signalled < |queue| then signalled else |queue|
  }

  /** The waiters that are asleep, in order. */
  function Sleepers(queue: seq<Tid>, status: map<Tid, WaitStatus>): seq<Tid> {
    if queue == [] then []
    else
      var t := queue[|queue| - 1];
      Sleepers(queue[..|queue| - 1], status) + if t in status && status[t].InWait? then [t] else []
  }

  lemma {:induction false} SleepersAre(queue: seq<Tid>, status: map<Tid, WaitStatus>)
    requires Distinct(queue)
    ensures var r := Sleepers(queue, status);
            Distinct(r) && forall t :: t in r <==> t in queue && t in status && status[t].InWait?
  {
    if queue != [] {
      var rest, t := queue[..|queue| - 1], queue[|queue| - 1];
      assert queue == rest + [t];
      SleepersAre(rest, status);
      WithLast(Sleepers(rest, status), t);
    }
  }

  /** The waiters in `done` are satisfied and marked, and nobody else is touched. */
  ghost predicate Served(done: seq<Tid>, status0: map<Tid, WaitStatus>, block0: map<Tid, BlockStatus>,
                         status: map<Tid, WaitStatus>, block: map<Tid, BlockStatus>) {
    && status.Keys == status0.Keys
    && (forall t :: t in status ==> status[t] == if t in done then Satisfied else status0[t])
    && (forall t :: t in done ==> t in block && block[t] == Acquired)
    && (forall t :: t !in done ==> (t in block <==> t in block0) && (t in block ==> block[t] == block0[t]))
  }

  lemma {:induction false} ServeOne(done: seq<Tid>, status0: map<Tid, WaitStatus>, block0: map<Tid, BlockStatus>,
                                    status: map<Tid, WaitStatus>, block: map<Tid, BlockStatus>, t: Tid)
    requires Served(done, status0, block0, status, block) && t in status0 && t !in done
    ensures Served(done + [t], status0, block0, status[t := Satisfied], block[t := Acquired])
    ensures t in status && status[t] == status0[t]
    ensures Sleepers(done + [t], status0) == Sleepers(done, status0) + if status0[t].InWait? then [t] else []
  {
    assert (done + [t])[..|done|] == done;
  }

  lemma {:induction false} StillQueued(done: seq<Tid>, status0: map<Tid, WaitStatus>, block0: map<Tid, BlockStatus>,
                                       status: map<Tid, WaitStatus>, block: map<Tid, BlockStatus>, queue: seq<Tid>)
    requires Served(done, status0, block0, status, block) && (forall t :: t in queue ==> t !in done && t in status0)
    ensures forall t :: t in queue ==> t in status && status[t] == status0[t]
  {
  }

  lemma {:induction false} ServedNone(status: map<Tid, WaitStatus>, block: map<Tid, BlockStatus>)
    ensures Served([], status, block, status, block) && Sleepers([], status) == []
  {
  }

  class DispatchHeader {
    const mutex: bool
    var signalled: int
    var owner: Option<Tid>
    var queue: seq<Tid>
    var status: map<Tid, WaitStatus>
    var block: map<Tid, BlockStatus>

    constructor (mutex: bool, count: nat)
      requires mutex ==> count == 1
      ensures this.mutex == mutex && signalled == count && queue == [] && status == map[] && owner.None?
      ensures Valid()
    {
      this.mutex := mutex;
      signalled, owner, queue, status, block := count, None, [], map[], map[];
    }

    /** Queued waiters are distinct and unsatisfied, and the object was left with no
        token for them. */
    ghost predicate Valid()
      reads this
    {
      && 0 <= signalled && Distinct(queue) && (mutex ==> signalled <= 1)
      && (forall t :: t in queue ==> t in status && !status[t].Satisfied?)
    }

    method TryToSatisfy(t: Tid) returns (r: Attempt)
      requires t in status
      modifies this`status, this`block
      ensures r == (match old(status)[t]
                    case Preparing => SatisfiedPreWait
                    case InWait => SatisfiedWait
                    case Satisfied => AlreadySatisfied)
      ensures status == old(status)[t := Satisfied]
      ensures block == old(block)[t := if r.AlreadySatisfied? then Deactivated else Acquired]
    {
      if status[t].Preparing? {
        status := status[t := Satisfied];
        block := block[t := Acquired];
        return SatisfiedPreWait;
      } else if status[t].InWait? {
        status := status[t := Satisfied];
        block := block[t := Acquired];
        return SatisfiedWait;
      }
      assert status == status[t := Satisfied];
      block := block[t := Deactivated];
      return AlreadySatisfied;
    }

    /** `ki_signal`: as many waiters as there are tokens, from the head of the queue,
        are satisfied and given one each; those asleep are returned for waking. */
    method Signal() returns (wake: seq<Tid>)
      requires Valid()
      modifies this
      ensures Valid() && (signalled == 0 || queue == [])
      ensures var n := Handed(old(queue), old(signalled));
              && queue == old(queue)[n..] && signalled == old(signalled) - n
              && wake == Sleepers(old(queue)[..n], old(status)) && Distinct(wake)
              && (forall t :: t in wake <==> t in old(queue)[..n] && t in old(status) && old(status)[t].InWait?)
              && Served(old(queue)[..n], old(status), old(block), status, block)
              && owner == if mutex && n > 0 then Some(old(queue)[n - 1]) else old(owner)
    {
      wake := [];
      ghost var n := 0;
      hide Served, Sleepers;
      ServedNone(status, block);
      while queue != [] && signalled > 0
        invariant n <= |old(queue)| && n <= Handed(old(queue), old(signalled))
        invariant queue == old(queue)[n..] && signalled == old(signalled) - n
        invariant wake == Sleepers(old(queue)[..n], old(status))
        invariant Served(old(queue)[..n], old(status), old(block), status, block)
        invariant owner == if mutex && n > 0 then Some(old(queue)[n - 1]) else old(owner)
        decreases |queue|
      {
        var wb := queue[0];
        Split(old(queue), n);
        ServeOne(old(queue)[..n], old(status), old(block), status, block, wb);
        queue := queue[1..];
        var r := TryToSatisfy(wb);
        if r.SatisfiedWait? {
          wake := wake + [wb];
        }
        signalled := signalled - 1;
        if mutex {
          owner := Some(wb);
        }
        n := n + 1;
      }
      Rest(old(queue), n);
      SleepersAre(old(queue)[..n], old(status));
      StillQueued(old(queue)[..n], old(status), old(block), status, block, queue);
    }

    /** `ke_semaphore_release`. */
    method Release(adjustment: nat) returns (wake: seq<Tid>)
      requires Valid() && !mutex
      modifies this
      ensures Valid() && (signalled == 0 || queue == [])
      ensures old(signalled) + adjustment == signalled + (|old(queue)| - |queue|)
      ensures queue == old(queue)[|old(queue)| - |queue|..]
      ensures wake == Sleepers(old(queue)[..|old(queue)| - |queue|], old(status))
    {
      signalled := signalled + adjustment;
      wake := Signal();
    }

    /** `ke_semaphore_release_maxone`. */
    method ReleaseMaxOne() returns (wake: seq<Tid>)
      requires Valid() && !mutex && (signalled == 0 || queue == [])
      modifies this
      ensures Valid() && (signalled == 0 || queue == [])
      ensures if old(signalled) > 0 then signalled == old(signalled) && queue == old(queue) && wake == []
              else if old(queue) == [] then signalled == 1 && queue == [] && wake == []
              else signalled == 0 && queue == old(queue)[1..] && wake == Sleepers([old(queue)[0]], old(status))
    {
      assert queue != [] ==> queue[..1] == [queue[0]] && Sleepers(queue[..1][..0], status) == [];
      if signalled == 0 {
        signalled := 1;
      }
      wake := Signal();
    }

    /** `ke_mutex_release`: the next waiter, if there is one, becomes the owner before
        the lock is dropped. */
    method ReleaseMutex(t: Tid) returns (wake: seq<Tid>)
      requires Valid() && mutex && owner == Some(t) && signalled == 0
      modifies this
      ensures Valid() && (signalled == 0 || queue == [])
      ensures if old(queue) == [] then owner.None? && signalled == 1 && wake == []
              else owner == Some(old(queue)[0]) && signalled == 0 && queue == old(queue)[1..]
                   && wake == Sleepers([old(queue)[0]], old(status))
    {
      owner := None;
      signalled := signalled + 1;
      assert queue != [] ==> queue[..1] == [queue[0]] && Sleepers(queue[..1][..0], status) == [];
      wake := Signal();
    }
  }

  /** The head of the rest of a queue of distinct waiters is not among those done. */
  lemma {:induction false} Split(q: seq<Tid>, n: nat)
    requires n < |q| && Distinct(q)
    ensures q[..n + 1] == q[..n] + [q[n]] && q[n..][0] == q[n] && q[n..][1..] == q[n + 1..] && q[n] !in q[..n]
    ensures q[..n + 1][..n] == q[..n] && q[n] in q
  {
  }

  lemma {:induction false} Rest(q: seq<Tid>, n: nat)
    requires n <= |q| && Distinct(q)
    ensures Distinct(q[n..]) && Distinct(q[..n]) && forall t :: t in q[n..] ==> t in q && t !in q[..n]
  {
  }
}
