/** Activities under way never block one another for good, and come to an end. */
module EpollProgress {
  import opened Queues
  import opened Epoll
  import opened EpollSafety

  // ------------------------------------------------------------------------ no deadlock

  /** Whoever has a ready list's lock needs no other. */
  lemma {:induction false} ReadyHolderGoes(s: State, a: nat, ep: Ep)
    requires StagesOk(s) && a < |s.stages| && Holds(s, s.stages[a], ReadyLock(ep))
    ensures CanGo(s, a)
  {
    assert StageOk(s, s.stages[a]);
  }

  /** If some activity is under way, some activity can proceed: the pollhead's lock comes
      before a ready list's, which comes last. */
  lemma {:induction false} NoDeadlock(s: State, a: nat)
    requires Inv(s) && a < |s.stages| && s.stages[a] != Idle
    ensures exists b :: CanGo(s, b)
  {
    if l: Lock, b: nat :| b < |s.stages| && l.ReadyLock? && Holds(s, s.stages[b], l) {
      ReadyHolderGoes(s, b, l.ep);
    } else {
      forall ep ensures Free(s, ReadyLock(ep)) {
      }
      if b: nat :| b < |s.stages| && Holds(s, s.stages[b], PollHead) {
        WalkGoes(s, b);
      } else {
        assert Free(s, PollHead);
        assert StageOk(s, s.stages[a]);
        assert !Holds(s, s.stages[a], PollHead);
        assert CanGo(s, a);
      }
    }
  }

  lemma {:induction false} WalkGoes(s: State, b: nat)
    requires StagesOk(s) && ListsOk(s) && b < |s.stages| && Holds(s, s.stages[b], PollHead)
    requires forall ep :: Free(s, ReadyLock(ep))
    ensures CanGo(s, b)
  {
    assert StageOk(s, s.stages[b]);
    hide Free;
  }

  // -------------------------------------------------------------------- it all ends

  /** How many actions a stage has left, with `n` watches. */
  function Left(st: Stage, n: nat): nat {
    match st
    case Idle => 0
    case Pending => 2 * n + 2
    case Walk(rest) => 2 * |rest| + 1
    case Inserted(_, rest) => 2 * |rest| + 2
    case Added(_) => 4
    case Registered(_) => 3
    case Matched(_) => 2
    case Entered(_) => 1
    case Scan(_, _, rest, _) => 2 * |rest| + 1
    case Polled(_, _, _, _, rest, _) => 2 * |rest| + 2
  }

  function Sum(sts: seq<Stage>, n: nat): nat {
    if sts == [] then 0 else Left(sts[0], n) + Sum(sts[1..], n)
  }

  lemma {:induction false} SumUpdate(sts: seq<Stage>, n: nat, a: nat, st: Stage)
    requires a < |sts|
    ensures Sum(sts[a := st], n) == Sum(sts, n) - Left(sts[a], n) + Left(st, n)
  {
    if a > 0 {
      SumUpdate(sts[1..], n, a - 1, st);
      assert sts[a := st][1..] == sts[1..][a - 1 := st];
    }
  }

  lemma {:induction false} DistinctSize(q: seq<Eid>, d: set<Eid>)
    requires Distinct(q) && forall e :: e in q ==> e in d
    ensures |q| <= |d|
  {
    if q != [] {
      TailOf(q);
      DistinctSize(q[1..], d - {q[0]});
    }
  }

  lemma {:induction false} GoLeft(s: State, a: nat)
    requires ListsOk(s) && CanGo(s, a)
    ensures Left(Go(s, a).stages[a], |s.entries.Keys|) < Left(s.stages[a], |s.entries.Keys|)
    ensures Go(s, a).entries == s.entries && Go(s, a).stages == s.stages[a := Go(s, a).stages[a]]
  {
    hide Free, Distinct;
    DistinctSize(s.pollers, s.entries.Keys);
    var st := s.stages[a];
    assert st.Scan? && st.rest != [] ==> |st.rest[1..]| == |st.rest| - 1;
  }

  function Work(s: State): nat {
    Sum(s.stages, |s.entries.Keys|)
  }

  lemma {:induction false} GoWorks(s: State, a: nat)
    requires ListsOk(s) && CanGo(s, a)
    ensures Work(Go(s, a)) < Work(s)
  {
    hide ListsOk, Go, Left;
    GoMoves(s, a);
    GoLeft(s, a);
    SumUpdate(s.stages, |s.entries.Keys|, a, Go(s, a).stages[a]);
  }

  /** `ss` are the states as activities under way proceed and nothing new starts. */
  ghost predicate Finishing(ss: seq<State>, who: seq<nat>) {
    && |ss| == |who| + 1 && Inv(ss[0])
    && forall i :: 0 <= i < |who| ==> CanGo(ss[i], who[i]) && ss[i + 1] == Go(ss[i], who[i])
  }

  /** Left to themselves the activities come to an end within a bound, and when none can
      proceed all are through, each watch that wants input while a byte is unread, or that
      wants output, on its ready list and its event signalled. */
  lemma {:induction false} Finishes(ss: seq<State>, who: seq<nat>, i: nat)
    requires Finishing(ss, who) && i < |ss|
    ensures Inv(ss[i]) && i + Work(ss[i]) <= Work(ss[0])
    ensures (forall a :: !CanGo(ss[i], a)) ==>
              forall e :: e in ss[i].pollers && e in ss[i].entries
                          && ((0 < ss[i].unread && ss[i].entries[e].wants.input) || ss[i].entries[e].wants.output) ==>
                e in Ready(ss[i], ss[i].entries[e].ep) && ss[i].entries[e].ep in ss[i].signalled
  {
    hide CanGo, Go, Work, Ready, Exclusive, StagesOk, NoneLost, DropsOk, EventsOk, ListsOk;
    if i > 0 {
      Finishes(ss, who, i - 1);
      GoKeeps(ss[i - 1], who[i - 1]);
      GoWorks(ss[i - 1], who[i - 1]);
    }
    var s := ss[i];
    if forall a :: !CanGo(s, a) {
      forall a | 0 <= a < |s.stages| ensures s.stages[a] == Idle {
        if s.stages[a] != Idle {
          NoDeadlock(s, a);
        }
      }
      forall e | e in s.pollers && e in s.entries
                 && ((0 < s.unread && s.entries[e].wants.input) || s.entries[e].wants.output)
        ensures e in Ready(s, s.entries[e].ep) && s.entries[e].ep in s.signalled
      {
        QuietReady(s, e);
      }
    }
  }
}
