/**
  The dispatcher comes to rest: once no new waits, releases, starts, preemptions or exits
  come in, what is under way ends within a bound, no two parts of it block one another, and
  then no thread sleeps on an object that has a token.
 */
module DispatcherProgress {
  import opened Counting
  import opened Options
  import opened Dispatcher
  import opened DispatcherInvariant
  import opened DispatcherSafety

  /** The step goes on with something under way. */
  predicate Inner(st: Step) {
    && !st.BeginWaitStep? && !st.ReleaseStep? && !st.ReleaseMutexStep?
    && !st.StartStep? && !st.PreemptStep? && !st.ExitStep?
  }

  ghost predicate AtRest(s: System) {
    forall st :: Inner(st) ==> !Enabled(s, st)
  }

  // ------------------------------------------------------------------- at rest

  lemma {:induction false} RestIs(s: System, c: Cpu, t: Tid)
    requires AtRest(s)
    ensures !CanSwitchDone(s, c) && !CanCommit(s, c, t) && !CanSleep(s, c, t) && !CanReschedule(s, c, t)
    ensures !CanSignal(s, c, t) && !CanTry(s, c, t) && !CanAcquire(s, c, t) && !CanWake(s, c, t, c)
    ensures !CanLookAtObject(s, c, t) && !CanReturnAtOnce(s, c, t) && !CanLockSelf(s, c, t) && !CanFinish(s, c, t)
  {
    assert !Enabled(s, SwitchDoneStep(c)) && !Enabled(s, CommitStep(c, t)) && !Enabled(s, SleepStep(c, t));
    assert !Enabled(s, RescheduleStep(c, t)) && !Enabled(s, SignalStep(c, t)) && !Enabled(s, TryStep(c, t));
    assert !Enabled(s, AcquireStep(c, t)) && !Enabled(s, WakeStep(c, t, c)) && !Enabled(s, LookStep(c, t));
    assert !Enabled(s, ReturnStep(c, t)) && !Enabled(s, LockStep(c, t)) && !Enabled(s, FinishStep(c, t));
  }

  lemma {:induction false} NoSwitch(s: System, a: Aux, c: Cpu)
    requires RunSide(s, a) && AtRest(s) && c in s.cpus
    ensures !s.cpus[c].switching
  {
    RestIs(s, c, s.cpus[c].cur);
  }

  /** A thread whose lock is held is switching out, or about to. */
  lemma {:induction false} HeldMoves(s: System, a: Aux, t: Tid)
    requires RunSide(s, a) && t in s.threads && s.threads[t].lock.HeldBy?
    ensures var c := s.threads[t].lock.cpu;
            CanSwitchDone(s, c) || CanCommit(s, c, t) || CanSleep(s, c, t) || CanReschedule(s, c, t)
  {
    hide ListsOk, StatesOk, LocksOk;
    LockIs(s, a, t);
    if HoldsOwn(s.threads[t].pc) {
      QueueThere(s, a, s.threads[t].lock.cpu, t);
    }
  }

  lemma {:induction false} LockIs(s: System, a: Aux, t: Tid)
    requires LocksOk(s, a) && t in s.threads
    ensures LockOk(s, a, t)
  {
  }

  lemma {:induction false} QueueThere(s: System, a: Aux, c: Cpu, t: Tid)
    requires ListsOk(s, a) && StatesOk(s, a) && c in s.cpus && PlaceOf(a, t) == OnCpu(c)
    ensures s.cpus[c].cur == t && s.cpus[c].idle in s.threads && forall x :: x in s.cpus[c].runq ==> x in s.threads
  {
  }

  lemma {:induction false} LocksFree(s: System, a: Aux, t: Tid)
    requires RunSide(s, a) && AtRest(s) && t in s.threads
    ensures s.threads[t].lock.Free?
  {
    hide RunSide;
    if !s.threads[t].lock.Free? {
      RestIs(s, s.threads[t].lock.cpu, t);
      HeldMoves(s, a, t);
    }
  }

  /** A thread that holds an object's lock or has threads to wake is on a processor. */
  lemma {:induction false} BusyRuns(s: System, a: Aux, r: Tid)
    requires RunSide(s, a) && r in s.threads && (Signals(s.threads[r].pc).Some? || s.threads[r].pc.WakeUp?)
    ensures PlaceOf(a, r).OnCpu? && PlaceOf(a, r).c in s.cpus && s.cpus[PlaceOf(a, r).c].cur == r
  {
    assert StateFits(s.threads[r], PlaceOf(a, r));
  }

  lemma {:induction false} HolderMoves(s: System, a: Aux, r: Tid, c: Cpu)
    requires WaitSide(s, a) && r in s.threads && Signals(s.threads[r].pc).Some? && Executes(s, c, r)
    ensures CanSignal(s, c, r) || CanTry(s, c, r) || CanAcquire(s, c, r)
  {
    FlightIn(s, a, r);
  }

  lemma {:induction false} Unlocked(s: System, a: Aux, o: Obj)
    requires WaitSide(s, a) && RunSide(s, a) && AtRest(s) && o in s.objects
    ensures s.objects[o].holder.None?
  {
    if s.objects[o].holder.Some? {
      var r := s.objects[o].holder.value;
      assert Signals(s.threads[r].pc) == Some(o);
      BusyRuns(s, a, r);
      var c := PlaceOf(a, r).c;
      hide WaitSide, RunSide, AtRest;
      NoSwitch(s, a, c);
      RestIs(s, c, r);
      HolderMoves(s, a, r, c);
    }
  }

  lemma {:induction false} FlightIn(s: System, a: Aux, r: Tid)
    requires FlightsOk(s, a) && r in s.threads
    ensures Flight(s.threads[r].pc).Some? ==> Flight(s.threads[r].pc).value in s.threads
  {
    if Flight(s.threads[r].pc).Some? {
      assert LocOf(a, Flight(s.threads[r].pc).value) == InFlight(r);
    }
  }

  lemma {:induction false} WakerMoves(s: System, a: Aux, r: Tid, c: Cpu)
    requires WaitSide(s, a) && r in s.threads && s.threads[r].pc.WakeUp? && Executes(s, c, r)
    requires forall t :: t in s.threads ==> s.threads[t].lock.Free?
    ensures CanWake(s, c, r, c)
  {
    var pc := s.threads[r].pc;
    assert pc.wake != [] ==> pc.wake[0] in WakeList(pc) && LocOf(a, pc.wake[0]) == InWake(r);
  }

  lemma {:induction false} WakersDone(s: System, a: Aux, r: Tid)
    requires WaitSide(s, a) && RunSide(s, a) && AtRest(s) && r in s.threads
    ensures Signals(s.threads[r].pc).None? && !s.threads[r].pc.WakeUp? && WakeList(s.threads[r].pc) == []
  {
    var pc := s.threads[r].pc;
    forall t | t in s.threads ensures s.threads[t].lock.Free? {
      LocksFree(s, a, t);
    }
    forall o | o in s.objects ensures s.objects[o].holder.None? {
      Unlocked(s, a, o);
    }
    assert Signals(pc).None?;
    hide AtRest, RunSide, WaitSide;
    if pc.WakeUp? {
      BusyRuns(s, a, r);
      var c := PlaceOf(a, r).c;
      NoSwitch(s, a, c);
      RestIs(s, c, r);
      WakerMoves(s, a, r, c);
    }
  }

  /** At rest every processor runs a thread that is outside the dispatcher. */
  lemma {:induction false} OthersOutside(s: System, a: Aux, c: Cpu)
    requires Inv(s, a) && AtRest(s) && c in s.cpus
    ensures s.cpus[c].cur in s.threads && s.threads[s.cpus[c].cur].pc.Outside?
  {
    var t := s.cpus[c].cur;
    assert PlaceOf(a, t) == OnCpu(c);
    NoSwitch(s, a, c);
    LocksFree(s, a, t);
    WakersDone(s, a, t);
    assert StateFits(s.threads[t], OnCpu(c)) && LockOk(s, a, t);
    var pc := s.threads[t].pc;
    if pc.Prepare? || pc.Finish? {
      Unlocked(s, a, pc.o);
    }
    RestIs(s, c, t);
  }

  /** At rest a sleeping thread is on the queue of its object, and the object has no token:
      whatever was released has reached a waiter. */
  lemma {:induction false} NoneSleepsBeside(s: System, a: Aux, t: Tid)
    requires Inv(s, a) && AtRest(s) && t in s.threads && s.threads[t].state.Waiting? && s.threads[t].pc.Finish?
    ensures var o := s.threads[t].pc.o;
            o in s.objects && t in s.objects[o].queue && s.objects[o].holder.None? && s.objects[o].signalled == 0
  {
    var o, l := s.threads[t].pc.o, LocOf(a, t);
    assert WaitFits(s.threads[t], l, HandPc(s, l));
    Unlocked(s, a, o);
    assert l.InWake? ==> t in WakeList(s.threads[l.r].pc);
    if l.InFlight? || l.InWake? {
      WakersDone(s, a, l.r);
    }
  }

  // ------------------------------------------------------------ the way to rest

  /** How many steps are left at most for a thread's code where it stands. */
  function Left(pc: Pc): nat {
    match pc
    case Prepare(_) => 16
    case Queued(_) => 7
    case Locked(_) => 6
    case Committing(_) => 5
    case Sleeping(_) => 4
    case Preempt => 3
    case Exit => 3
    case Got(_) => 1
    case Finish(_) => 1
    case Signal(_, wake) => 2 + 2 * |wake|
    case TryPreparing(_, wake, _) => 9 + 2 * |wake|
    case TryWaiting(_, wake, _) => 8 + 2 * |wake|
    case Acquire(_, wake, _, _) => 7 + 2 * |wake|
    case WakeUp(wake) => 1 + 2 * |wake|
    case _ => 0
  }

  ghost function ThreadsLeft(s: System): map<int, nat> {
    map t | t in s.threads :: Left(s.threads[t].pc)
  }

  ghost function QueuesLeft(s: System): map<int, nat> {
    map o | o in s.objects :: 8 * |s.objects[o].queue|
  }

  ghost function SwitchesLeft(s: System): map<int, nat> {
    map c | c in s.cpus :: if s.cpus[c].switching then 1 else 0
  }

  /** A bound on the steps that are left of what is under way. */
  ghost function Effort(s: System): nat {
    Total(s.threads.Keys, ThreadsLeft(s)) + Total(s.objects.Keys, QueuesLeft(s)) + Total(s.cpus.Keys, SwitchesLeft(s))
  }

  /** Only thread `t`, object `o` and processor `c` have come nearer to rest or gone
      further from it. */
  ghost predicate OnlyMoves(s: System, s': System, t: Tid, o: Obj, c: Cpu) {
    && t in s.threads && s'.threads.Keys == s.threads.Keys
    && (forall x :: x in s.threads && x != t ==> s'.threads[x].pc == s.threads[x].pc)
    && s'.objects.Keys == s.objects.Keys
    && (forall x :: x in s.objects && x != o ==> s'.objects[x].queue == s.objects[x].queue)
    && c in s.cpus && s'.cpus.Keys == s.cpus.Keys
    && (forall x :: x in s.cpus && x != c ==> s'.cpus[x].switching == s.cpus[x].switching)
  }

  function QueueAt(s: System, o: Obj): nat {
    if o in s.objects then 8 * |s.objects[o].queue| else 0
  }

  function SwitchAt(s: System, c: Cpu): nat {
    if c in s.cpus && s.cpus[c].switching then 1 else 0
  }

  lemma {:induction false} EffortMoves(s: System, s': System, t: Tid, o: Obj, c: Cpu)
    requires OnlyMoves(s, s', t, o, c)
    ensures Effort(s') - Effort(s) == Left(s'.threads[t].pc) - Left(s.threads[t].pc)
                                      + QueueAt(s', o) - QueueAt(s, o) + SwitchAt(s', c) - SwitchAt(s, c)
  {
    hide Left;
    TotalOne(s.threads.Keys, ThreadsLeft(s), ThreadsLeft(s'), t);
    TotalOne(s.cpus.Keys, SwitchesLeft(s), SwitchesLeft(s'), c);
    if o in s.objects {
      TotalOne(s.objects.Keys, QueuesLeft(s), QueuesLeft(s'), o);
    } else {
      TotalSame(s.objects.Keys, QueuesLeft(s), QueuesLeft(s'));
    }
  }

  /** The thread, the object and the processor a step under way moves. */
  function MoverOf(s: System, st: Step): Tid
    requires Inner(st) && Enabled(s, st)
  {
    if st.SwitchDoneStep? then s.cpus[st.c].prev else st.t
  }

  function QueueOf(s: System, st: Step): Obj
    requires Inner(st) && Enabled(s, st)
  {
    if st.LookStep? || st.SignalStep? then s.threads[st.t].pc.o else 0
  }

  /** The step moves one thread, one queue and one processor, nearer to rest in all. */
  ghost predicate Drops(s: System, st: Step)
    requires Inner(st) && Enabled(s, st)
  {
    var s', t, o, c := Next(s, st), MoverOf(s, st), QueueOf(s, st), st.c;
    && OnlyMoves(s, s', t, o, c)
    && Left(s'.threads[t].pc) + QueueAt(s', o) + SwitchAt(s', c) <
       Left(s.threads[t].pc) + QueueAt(s, o) + SwitchAt(s, c)
  }

  lemma {:induction false} WaitSteps(s: System, st: Step)
    requires Enabled(s, st) && (st.ReturnStep? || st.LockStep? || st.CommitStep? || st.SleepStep? || st.FinishStep?)
    ensures Drops(s, st)
  {
  }

  lemma {:induction false} LookSteps(s: System, st: Step)
    requires Enabled(s, st) && st.LookStep?
    ensures Drops(s, st)
  {
  }

  lemma {:induction false} SignalSteps(s: System, st: Step)
    requires Enabled(s, st) && st.SignalStep?
    ensures Drops(s, st)
  {
  }

  lemma {:induction false} TryDrops(s: System, st: Step)
    requires Enabled(s, st) && st.TryStep? && var pc := s.threads[st.t].pc;
             && !pc.Recheck? && pc.t != st.t
             && (pc.TryWaiting? ==> s.threads[pc.t].wait.InWait?)
    ensures Drops(s, st)
  {
  }

  lemma {:induction false} AcquireDrops(s: System, st: Step)
    requires Enabled(s, st) && st.AcquireStep? && s.threads[st.t].pc.t != st.t
    ensures Drops(s, st)
  {
  }

  lemma {:induction false} HandSteps(s: System, a: Aux, st: Step)
    requires WaitSide(s, a) && Enabled(s, st) && (st.TryStep? || st.AcquireStep?)
    ensures Drops(s, st)
  {
    InHand(s, a, st.t);
    hide WaitSide;
    if st.TryStep? {
      TryDrops(s, st);
    } else {
      AcquireDrops(s, st);
    }
  }

  lemma {:induction false} WakeSteps(s: System, st: Step)
    requires Enabled(s, st) && st.WakeStep?
    ensures Drops(s, st)
  {
  }

  lemma {:induction false} RescheduleSteps(s: System, st: Step)
    requires Enabled(s, st) && st.RescheduleStep?
    ensures Drops(s, st)
  {
  }

  lemma {:induction false} SwitchSteps(s: System, st: Step)
    requires Enabled(s, st) && st.SwitchDoneStep?
    ensures Drops(s, st)
  {
  }

  /** Every step under way brings the dispatcher nearer to rest. */
  lemma {:induction false} StepDrops(s: System, a: Aux, st: Step)
    requires Inv(s, a) && Inner(st) && Enabled(s, st)
    ensures Effort(Next(s, st)) < Effort(s)
  {
    hide WaitSide, RunSide, TokensOk, MutexesOk, Enabled, Next, Effort, Left;
    match st {
      case LookStep(_, _) => LookSteps(s, st);
      case SignalStep(_, _) => SignalSteps(s, st);
      case TryStep(_, _) => HandSteps(s, a, st);
      case AcquireStep(_, _) => HandSteps(s, a, st);
      case WakeStep(_, _, _) => WakeSteps(s, st);
      case RescheduleStep(_, _) => RescheduleSteps(s, st);
      case SwitchDoneStep(_) => SwitchSteps(s, st);
      case _ => WaitSteps(s, st);
    }
    EffortMoves(s, Next(s, st), MoverOf(s, st), QueueOf(s, st), st.c);
  }

  /** What is under way ends: no run of such steps is longer than the effort left. */
  lemma {:induction false} ComesToRest(s: System, a: Aux, steps: seq<Step>)
    requires Inv(s, a) && Runs(s, steps) && forall st :: st in steps ==> Inner(st)
    ensures |steps| + Effort(Final(s, steps)) <= Effort(s)
    decreases |steps|
  {
    hide Inv, Enabled, Next, NextAux, Asserts, Effort, Inner;
    if steps != [] {
      assert steps[0] in steps && forall st :: st in steps[1..] ==> st in steps;
      StepSafe(s, a, steps[0]);
      StepDrops(s, a, steps[0]);
      ComesToRest(Next(s, steps[0]), NextAux(s, a, steps[0]), steps[1..]);
    }
  }

  /** The dispatcher after any run: once nothing new comes in it is at rest within the effort
      left. Then every processor runs a thread outside the dispatcher, and whoever sleeps
      is queued on an object that has no token. */
  lemma {:induction false} Settles(s: System, steps: seq<Step>, more: seq<Step>)
    requires Init(s) && Runs(s, steps) && Runs(Final(s, steps), more) && forall st :: st in more ==> Inner(st)
    ensures |more| <= Effort(Final(s, steps))
    ensures var s' := Final(Final(s, steps), more);
            AtRest(s') ==>
              && (forall c :: c in s'.cpus ==> s'.cpus[c].cur in s'.threads && s'.threads[s'.cpus[c].cur].pc.Outside?)
              && (forall t :: t in s'.threads && s'.threads[t].state.Waiting? && s'.threads[t].pc.Finish? ==>
                    var o := s'.threads[t].pc.o;
                    o in s'.objects && t in s'.objects[o].queue && s'.objects[o].signalled == 0)
  {
    hide Inv, Init, Runs, Final, Inner, AtRest, Effort, AllAssert;
    RunSafe(s, steps);
    var a :| Inv(Final(s, steps), a);
    ComesToRest(Final(s, steps), a, more);
    RunKeeps(Final(s, steps), a, more);
    var s' := Final(Final(s, steps), more);
    var a' :| Inv(s', a');
    if AtRest(s') {
      forall c | c in s'.cpus ensures s'.cpus[c].cur in s'.threads && s'.threads[s'.cpus[c].cur].pc.Outside? {
        OthersOutside(s', a', c);
      }
      forall t | t in s'.threads && s'.threads[t].state.Waiting? && s'.threads[t].pc.Finish?
        ensures var o := s'.threads[t].pc.o;
                o in s'.objects && t in s'.objects[o].queue && s'.objects[o].signalled == 0
      {
        NoneSleepsBeside(s', a', t);
      }
    }
  }

  // ------------------------------------------------------------------ run queues

  function First(q: seq<Tid>): seq<Tid> {
    if q == [] then [] else [q[0]]
  }

  /** Threads run in the order of the queue: a reschedule takes the first, after putting the
      running thread at the end; threads that wake or start go to the front; the idle thread
      runs only when nobody else can. */
  lemma {:induction false} RunsInOrder(s: System, st: Step, c: Cpu)
    requires Enabled(s, st) && c in s.cpus
    ensures c in Next(s, st).cpus
    ensures var p, p' := s.cpus[c], Next(s, st).cpus[c];
            if st.RescheduleStep? && st.c == c then
              var back := if st.t != p.idle && s.threads[st.t].state.Running? then [st.t] else [];
              if p.runq + back == [] then p'.cur == p.idle && p'.runq == [] else p.runq + back == [p'.cur] + p'.runq
            else
              p'.cur == p.cur && p'.runq == match st {
                                              case StartStep(_, _, h, d) => if d == c then [h] + p.runq else p.runq
                                              case WakeStep(_, t, d) =>
                                                if d == c then First(s.threads[t].pc.wake) + p.runq else p.runq
                                              case _ => p.runq
                                            }
  {
  }

  /** Waiters are served in the order they came: a wait that finds no token joins the end of
      the queue, and a release with a token takes the first. */
  lemma {:induction false} ServesInOrder(s: System, st: Step, o: Obj)
    requires Enabled(s, st) && o in s.objects
    ensures o in Next(s, st).objects
    ensures var q, q' := s.objects[o].queue, Next(s, st).objects[o].queue;
            if st.LookStep? && s.threads[st.t].pc.o == o && s.objects[o].signalled <= 0 then q' == q + [st.t]
            else if st.SignalStep? && s.threads[st.t].pc.o == o && q != [] && 0 < s.objects[o].signalled then
              st.t in Next(s, st).threads && Flight(Next(s, st).threads[st.t].pc) == Some(q[0]) && q == [q[0]] + q'
            else q' == q
  {
  }
}
