/**
  Safety of the dispatcher over every run: no assertion of the kernel fails, tokens
  are conserved, no wake-up is lost, mutexes exclude, and every thread is in one
  place.
 */
module DispatcherSafety {
  import opened Counting
  import opened Queues
  import opened Options
  import opened Dispatcher
  import opened DispatcherInvariant

  // ------------------------------------------------------- rescheduling, run side

  /** The run queue with the old thread back on it, if it was running. */
  function Queue(s: System, c: Cpu, t: Tid): seq<Tid>
    requires c in s.cpus && t in s.threads
  {
    if SwitchedOut(s.cpus[c], t, s.threads[t]).1 then s.cpus[c].runq + [t] else s.cpus[c].runq
  }

  /** What rescheduling finds. */
  predicate Switches(s: System, c: Cpu, t: Tid) {
    && Executes(s, c, t) && (s.threads[t].pc.Sleeping? || s.threads[t].pc.Preempt? || s.threads[t].pc.Exit?)
    && s.cpus[c].idle in s.threads && t !in s.cpus[c].runq && (forall x :: x in s.cpus[c].runq ==> x in s.threads)
  }

  lemma {:induction false} QueueFacts(s: System, a: Aux, c: Cpu, t: Tid)
    requires ListsOk(s, a) && Switches(s, c, t)
    ensures var q := Queue(s, c, t);
            && Distinct(q) && Picked(s, c, t) == (if q == [] then s.cpus[c].idle else q[0])
            && (forall x :: x in q <==> x in s.cpus[c].runq || (x == t && SwitchedOut(s.cpus[c], t, s.threads[t]).1))
            && (q != [] ==> Distinct(q[1..]) && q[0] !in q[1..] && forall x :: x in q <==> x == q[0] || x in q[1..])
            && Picked(s, c, t) in s.threads
  {
    WithLast(s.cpus[c].runq, t);
    if Queue(s, c, t) != [] {
      TailOf(Queue(s, c, t));
      assert Queue(s, c, t)[0] in Queue(s, c, t);
    }
  }

  lemma {:induction false} RescheduleLists(s: System, a: Aux, c: Cpu, t: Tid)
    requires ListsOk(s, a) && Switches(s, c, t)
    requires Queue(s, c, t) == [] ==> s.cpus[c].idle == t || PlaceOf(a, s.cpus[c].idle).OffCpu?
    ensures ListsOk(Reschedule(s, c, t), RescheduleAux(s, a, c, t))
  {
    QueueFacts(s, a, c, t);
    var s', a' := Reschedule(s, c, t), RescheduleAux(s, a, c, t);
    var n, q := Picked(s, c, t), Queue(s, c, t);
    var requeue := SwitchedOut(s.cpus[c], t, s.threads[t]).1;
    assert s'.cpus[c].runq == (if q == [] then [] else q[1..]) && s'.cpus[c].cur == n;
    assert forall x ::
      PlaceOf(a', x) ==
      if x == n then OnCpu(c) else if x == t then (if requeue then OnRunq(c) else OffCpu) else PlaceOf(a, x);
    hide Reschedule, RescheduleAux, Picked, Queue, SwitchedOut;
    forall d, x | d in s'.cpus
      ensures x in s'.cpus[d].runq <==> PlaceOf(a', x) == OnRunq(d)
      ensures s'.cpus[d].cur == x <==> PlaceOf(a', x) == OnCpu(d)
    {
      assert x in s.cpus[d].runq <==> PlaceOf(a, x) == OnRunq(d);
      assert s.cpus[d].cur == x <==> PlaceOf(a, x) == OnCpu(d);
      assert n in s.cpus[c].runq <==> PlaceOf(a, n) == OnRunq(c);
    }
  }

  /** An executing thread about to be switched out, seen by the invariant. */
  lemma {:induction false} SwitchFacts(s: System, a: Aux, c: Cpu, t: Tid)
    requires RunSide(s, a) && CanReschedule(s, c, t)
    ensures Switches(s, c, t) && RescheduleAsserts(s, c, t) && PlaceOf(a, t) == OnCpu(c)
    ensures StateFits(s.threads[t], OnCpu(c)) && (s.threads[t].idleOf.Some? <==> t == s.cpus[c].idle)
    ensures s.threads[s.cpus[c].idle].idleOf == Some(c)
    ensures s.cpus[c].idle == t || PlaceOf(a, s.cpus[c].idle).OffCpu?
  {
    OnItsCpu(s, a, c, t);
    ExecutingLock(s, a, c, t);
    assert StateFits(s.threads[s.cpus[c].idle], PlaceOf(a, s.cpus[c].idle));
  }

  /** The thread picked, if it is another, is off its lock and waiting to run. */
  lemma {:induction false} PickFacts(s: System, a: Aux, c: Cpu, t: Tid)
    requires RunSide(s, a) && CanReschedule(s, c, t)
    ensures var n := Picked(s, c, t);
            && n in s.threads
            && (n != t ==> Pickable(s.threads[n]) && s.threads[n].lock.Free? && !PlaceOf(a, n).OnCpu?
                           && (s.threads[n].idleOf.Some? ==> n == s.cpus[c].idle))
            && (n == t ==> s.threads[t].pc.Preempt?)
  {
    SwitchFacts(s, a, c, t);
    QueueFacts(s, a, c, t);
    var n := Picked(s, c, t);
    assert StateFits(s.threads[n], PlaceOf(a, n));
    assert LockOk(s, a, n);
    assert n in s.cpus[c].runq <==> PlaceOf(a, n) == OnRunq(c);
  }

  lemma {:induction false} RescheduleStates(s: System, a: Aux, c: Cpu, t: Tid)
    requires StatesOk(s, a) && Switches(s, c, t) && StateFits(s.threads[t], OnCpu(c))
    requires (s.threads[t].idleOf.Some? <==> t == s.cpus[c].idle)
    requires Picked(s, c, t) in s.threads && (Picked(s, c, t) == t ==> s.threads[t].pc.Preempt?)
    requires Picked(s, c, t) != t ==> Pickable(s.threads[Picked(s, c, t)])
    requires s.threads[Picked(s, c, t)].idleOf.Some? ==>
               Picked(s, c, t) == s.cpus[c].idle && s.threads[Picked(s, c, t)].idleOf == Some(c)
    ensures StatesOk(Reschedule(s, c, t), RescheduleAux(s, a, c, t))
  {
    var s', a' := Reschedule(s, c, t), RescheduleAux(s, a, c, t);
    var n := Picked(s, c, t);
    assert StateFits(s'.threads[n], OnCpu(c));
    assert n != t ==> StateFits(s'.threads[t], PlaceOf(a', t));
    hide StateFits;
    forall x | x in s.threads && x != n && x != t ensures StateFits(s'.threads[x], PlaceOf(a', x)) {
      assert s'.threads[x] == s.threads[x] && PlaceOf(a', x) == PlaceOf(a, x);
    }
  }

  /** What rescheduling does to locks, positions and places. */
  lemma {:induction false} RescheduleView(s: System, a: Aux, c: Cpu, t: Tid)
    requires Switches(s, c, t) && Picked(s, c, t) in s.threads
    ensures var s', a', n := Reschedule(s, c, t), RescheduleAux(s, a, c, t), Picked(s, c, t);
            && s'.threads.Keys == s.threads.Keys && s'.cpus == s.cpus[c := s'.cpus[c]]
            && s'.cpus[c].switching && s'.cpus[c].prev == t && s'.cpus[c].cur == n
            && (forall x :: x in s.threads ==>
                  s'.threads[x].lock == s.threads[x].lock && s'.threads[x].idleOf == s.threads[x].idleOf)
            && (forall x :: x in s.threads && x != t ==> s'.threads[x].pc == s.threads[x].pc)
            && s'.threads[t].pc == Resumed(s.threads[t].pc) && PlaceOf(a', n) == OnCpu(c)
            && (n != t ==> PlaceOf(a', t) == OnRunq(c) || PlaceOf(a', t) == OffCpu)
            && (forall x :: x != n && x != t ==> PlaceOf(a', x) == PlaceOf(a, x))
  {
  }

  lemma {:induction false} OnlyOneOn(s: System, a: Aux, c: Cpu, t: Tid)
    requires ListsOk(s, a) && Executes(s, c, t)
    ensures forall x :: PlaceOf(a, x) == OnCpu(c) ==> x == t
  {
  }

  lemma {:induction false} RescheduleLocks(s: System, a: Aux, c: Cpu, t: Tid)
    requires ListsOk(s, a) && LocksOk(s, a) && Switches(s, c, t) && s.threads[t].lock == HeldBy(c)
    requires Picked(s, c, t) in s.threads && (Picked(s, c, t) == t ==> s.threads[t].pc.Preempt?)
    requires Picked(s, c, t) != t ==> Pickable(s.threads[Picked(s, c, t)]) && s.threads[Picked(s, c, t)].lock.Free?
    requires s.threads[t].idleOf.Some? ==> s.threads[t].idleOf == Some(c)
    ensures LocksOk(Reschedule(s, c, t), RescheduleAux(s, a, c, t))
  {
    hide ListsOk, Reschedule, RescheduleAux, Picked;
    var s', a' := Reschedule(s, c, t), RescheduleAux(s, a, c, t);
    RescheduleView(s, a, c, t);
    OnlyOneOn(s, a, c, t);
    forall x | x in s'.threads ensures LockOk(s', a', x) {
      assert LockOk(s, a, x);
    }
  }

  lemma {:induction false} RescheduleRun(s: System, a: Aux, c: Cpu, t: Tid)
    requires RunSide(s, a) && CanReschedule(s, c, t)
    ensures RunSide(Reschedule(s, c, t), RescheduleAux(s, a, c, t))
  {
    hide ListsOk, StatesOk, LocksOk, Reschedule, RescheduleAux, Picked;
    SwitchFacts(s, a, c, t);
    PickFacts(s, a, c, t);
    RescheduleLists(s, a, c, t);
    RescheduleStates(s, a, c, t);
    RescheduleLocks(s, a, c, t);
  }

  // --------------------------------------------------------- the end of a switch

  lemma {:induction false} SwitchDoneLocks(s: System, a: Aux, c: Cpu)
    requires ListsOk(s, a) && LocksOk(s, a) && CanSwitchDone(s, c)
    ensures LocksOk(SwitchDone(s, c), a)
  {
    var s' := SwitchDone(s, c);
    forall x | x in s'.threads ensures LockOk(s', a, x) {
      assert LockOk(s, a, x);
    }
  }

  lemma {:induction false} SwitchDoneRun(s: System, a: Aux, c: Cpu)
    requires RunSide(s, a) && CanSwitchDone(s, c)
    ensures RunSide(SwitchDone(s, c), a)
  {
    SwitchDoneLocks(s, a, c);
    hide LocksOk;
    assert ListsOk(SwitchDone(s, c), a);
    hide ListsOk;
    assert StatesOk(SwitchDone(s, c), a);
  }

  /** The thread switched away from has nobody's wait block in hand. */
  lemma {:induction false} PrevPlain(s: System, a: Aux, c: Cpu)
    requires RunSide(s, a) && CanSwitchDone(s, c)
    ensures Flight(s.threads[s.cpus[c].prev].pc).None?
  {
    assert LockOk(s, a, s.cpus[c].prev);
    assert StateFits(s.threads[s.cpus[c].prev], PlaceOf(a, s.cpus[c].prev));
  }

  // ------------------------------------------------------------- waking, run side

  /** A sleeper on a wake list whose lock is free has finished switching out: the
      assertion of `ki_wake_waiter` holds. */
  lemma {:induction false} SleeperReady(s: System, a: Aux, t: Tid)
    requires WaitSide(s, a) && RunSide(s, a) && t in s.threads && s.threads[t].pc.WakeUp? && s.threads[t].pc.wake != []
    requires var h := s.threads[t].pc.wake[0]; h in s.threads && s.threads[h].lock.Free?
    ensures Wakes(s, t) && WakeAsserts(s, t)
    ensures var h := s.threads[t].pc.wake[0];
            && h != t && PlaceOf(a, h).OffCpu? && s.threads[h].idleOf.None?
            && (forall c :: c in s.cpus && s.cpus[c].switching ==> s.cpus[c].prev != h)
  {
    var h := s.threads[t].pc.wake[0];
    OnWakeList(s, a, t);
    FitsNow(s, a, h);
    hide WaitSide;
    assert LockOk(s, a, h);
    assert StateFits(s.threads[h], PlaceOf(a, h));
  }

  lemma {:induction false} WakeRun(s: System, a: Aux, c: Cpu, t: Tid, d: Cpu)
    requires RunSide(s, a) && CanWake(s, c, t, d) && Wakes(s, t) && s.threads[t].pc.wake[0] != t
    requires PlaceOf(a, s.threads[t].pc.wake[0]).OffCpu? && s.threads[s.threads[t].pc.wake[0]].idleOf.None?
    ensures RunSide(Wake(s, t, d), Move(Put(a, s.threads[t].pc.wake[0], Nowhere), s.threads[t].pc.wake[0], OnRunq(d)))
  {
    hide RunSide;
    var wake := s.threads[t].pc.wake;
    var h := wake[0];
    var s1 := WithThread(s, t, s.threads[t].(pc := WakeUp(wake[1..])));
    PlainRun(s, s1, a, c, t);
    var th := s.threads[h].(state := Runnable);
    JoinRun(s1, a, h, th, d);
    assert Joined(s1, h, th, d).threads == Wake(s, t, d).threads;
    SameAuxRun(Wake(s, t, d), Move(a, h, OnRunq(d)), Move(Put(a, h, Nowhere), h, OnRunq(d)));
  }

  /** The run side does not depend on where wait blocks are. */
  lemma {:induction false} SameAuxRun(s: System, a: Aux, a': Aux)
    requires RunSide(s, a) && a'.place == a.place
    ensures RunSide(s, a')
  {
    assert forall t :: PlaceOf(a', t) == PlaceOf(a, t);
    assert ListsOk(s, a') && StatesOk(s, a');
    assert forall t :: t in s.threads && LockOk(s, a, t) ==> LockOk(s, a', t);
  }

  lemma {:induction false} StartRun(s: System, a: Aux, c: Cpu, t: Tid, h: Tid, d: Cpu)
    requires RunSide(s, a) && CanStart(s, c, t, h, d)
    ensures RunSide(Start(s, h, d), Move(a, h, OnRunq(d)))
  {
    assert StateFits(s.threads[h], PlaceOf(a, h));
    hide RunSide;
    JoinRun(s, a, h, s.threads[h].(pc := Outside), d);
  }

  // -------------------------------------------------------------------- tokens

  ghost predicate Ledgers(s: System) {
    TokensOk(s) && MutexesOk(s)
  }

  predicate SameLedger(ob: Object, ob': Object) {
    && ob'.mutex == ob.mutex && ob'.signalled == ob.signalled && ob'.owner == ob.owner
    && ob'.added == ob.added && ob'.returned == ob.returned
  }

  predicate SameGrant(th: Thread, th': Thread) {
    GrantOf(th') == GrantOf(th) && th'.owns == th.owns
  }

  /** Nobody is granted or gives up anything. */
  ghost predicate NoGrants(s: System, s': System) {
    && s'.threads.Keys == s.threads.Keys && s'.objects.Keys == s.objects.Keys
    && (forall x :: x in s.threads ==> SameGrant(s.threads[x], s'.threads[x]))
    && (forall o :: o in s.objects ==> SameLedger(s.objects[o], s'.objects[o]))
  }

  lemma {:induction false} NoGrantsKeeps(s: System, s': System)
    requires Ledgers(s) && NoGrants(s, s')
    ensures Ledgers(s')
  {
    forall o ensures Granted(s', o) == Granted(s, o) {
      forall t ensures t in Granted(s', o) <==> t in Granted(s, o) {
        assert t in s.threads ==> SameGrant(s.threads[t], s'.threads[t]);
      }
    }
  }

  /** Only thread `x`'s grant changes. */
  ghost predicate OneGrant(s: System, s': System, x: Tid) {
    && s'.threads.Keys == s.threads.Keys && x in s.threads
    && (forall y :: y in s.threads && y != x ==> SameGrant(s.threads[y], s'.threads[y]))
  }

  lemma {:induction false} GrantedOne(s: System, s': System, x: Tid, o: Obj)
    requires OneGrant(s, s', x)
    ensures |Granted(s', o)| ==
            |Granted(s, o)| - B(GrantOf(s.threads[x]) == Some(o)) + B(GrantOf(s'.threads[x]) == Some(o))
  {
    forall t ensures t in Granted(s', o) - {x} <==> t in Granted(s, o) - {x} {
      assert t in s.threads && t != x ==> SameGrant(s.threads[t], s'.threads[t]);
    }
    assert Granted(s, o) - {x} == Granted(s', o) - {x};
    CardOne(Granted(s, o), Granted(s', o), x);
  }

  /** Each object's account moves with thread `x`'s grant. */
  ghost predicate Balances(s: System, s': System, x: Tid)
    requires x in s.threads && x in s'.threads
  {
    && s'.objects.Keys == s.objects.Keys
    && (forall o :: o in s.objects ==>
          s'.objects[o].added - s'.objects[o].signalled - s'.objects[o].returned ==
          s.objects[o].added - s.objects[o].signalled - s.objects[o].returned
          - B(GrantOf(s.threads[x]) == Some(o)) + B(GrantOf(s'.threads[x]) == Some(o)))
  }

  lemma {:induction false} BalancedTokens(s: System, s': System, x: Tid)
    requires TokensOk(s) && OneGrant(s, s', x) && Balances(s, s', x)
    ensures TokensOk(s')
  {
    forall o | o in s'.objects
      ensures s'.objects[o].added == s'.objects[o].signalled + s'.objects[o].returned + |Granted(s', o)|
    {
      GrantedOne(s, s', x, o);
    }
  }

  /** `o` gives a token to `x`, which is waiting for it and had none. */
  ghost predicate Gives(s: System, s': System, x: Tid, o: Obj) {
    && OneGrant(s, s', x) && o in s.objects && 0 < s.objects[o].signalled
    && GrantOf(s.threads[x]).None? && GrantOf(s'.threads[x]) == Some(o) && s'.threads[x].owns == s.threads[x].owns
    && s'.objects == s.objects[o := Take(s.objects[o], x)]
  }

  lemma {:induction false} GivesMutexes(s: System, s': System, x: Tid, o: Obj)
    requires MutexesOk(s) && Gives(s, s', x, o)
    ensures MutexesOk(s')
  {
  }

  lemma {:induction false} GivesKeeps(s: System, s': System, x: Tid, o: Obj)
    requires Ledgers(s) && Gives(s, s', x, o)
    ensures Ledgers(s')
  {
    hide TokensOk;
    GivesMutexes(s, s', x, o);
    hide MutexesOk;
    BalancedTokens(s, s', x);
  }

  lemma {:induction false} TakeLedgers(s: System, a: Aux, c: Cpu, t: Tid)
    requires Ledgers(s) && WaitSide(s, a) && CanLookAtObject(s, c, t)
    ensures Ledgers(LookAtObject(s, t))
  {
    hide Ledgers;
    FitsNow(s, a, t);
    var s', o := LookAtObject(s, t), s.threads[t].pc.o;
    if 0 < s.objects[o].signalled {
      GivesKeeps(s, s', t, o);
    } else {
      NoGrantsKeeps(s, s');
    }
  }

  lemma {:induction false} AcquireLedgers(s: System, a: Aux, c: Cpu, t: Tid)
    requires Ledgers(s) && WaitSide(s, a) && CanAcquire(s, c, t)
    ensures Ledgers(AcquireFor(s, t))
  {
    hide Ledgers;
    InHand(s, a, t);
    GivesKeeps(s, AcquireFor(s, t), s.threads[t].pc.t, s.threads[t].pc.o);
  }

  lemma {:induction false} ReturnLedgers(s: System, t: Tid, o: Obj)
    requires Ledgers(s) && t in s.threads && o in s.objects && GrantOf(s.threads[t]) == Some(o)
    ensures Ledgers(Return(s, t, o))
  {
    ReturnMutexes(s, t, o);
    hide TokensOk, MutexesOk;
    BalancedTokens(s, Return(s, t, o), t);
  }

  lemma {:induction false} ReturnMutexes(s: System, t: Tid, o: Obj)
    requires MutexesOk(s) && t in s.threads && o in s.objects && GrantOf(s.threads[t]) == Some(o)
    ensures MutexesOk(Return(s, t, o))
  {
  }

  lemma {:induction false} ReleaseLedgers(s: System, c: Cpu, t: Tid, o: Obj, amount: Amount)
    requires Ledgers(s) && CanRelease(s, c, t, o)
    ensures Ledgers(Release(s, t, o, amount))
  {
    var s' := Release(s, t, o, amount);
    BalancedTokens(s, s', t);
    hide TokensOk;
  }

  /** Releasing a mutex that was acquired: its assertions hold. */
  lemma {:induction false} ReleaseMutexLedgers(s: System, c: Cpu, t: Tid, o: Obj)
    requires Ledgers(s) && CanReleaseMutex(s, c, t, o) && 0 <= s.objects[o].signalled
    ensures ReleaseAsserts(s, t, o) && Ledgers(ReleaseMutex(s, t, o))
  {
    var s' := ReleaseMutex(s, t, o);
    BalancedTokens(s, s', t);
    hide TokensOk;
  }

  // -------------------------------------------------------------- the whole machine

  /** How the auxiliary maps follow a step. */
  function NextAux(s: System, a: Aux, st: Step): Aux
    requires Enabled(s, st)
  {
    match st
    case LookStep(c, t) =>
      if 0 < s.objects[s.threads[t].pc.o].signalled then a else Put(a, t, InQueue(s.threads[t].pc.o))
    case SignalStep(c, t) => if Hands(s, t) then DequeueAux(s, a, t) else a
    case AcquireStep(c, t) => AcquireAux(s, a, t)
    case WakeStep(c, t, d) =>
      var wake := s.threads[t].pc.wake;
      if wake == [] then a else Move(Put(a, wake[0], Nowhere), wake[0], OnRunq(d))
    case StartStep(c, t, h, d) => Move(a, h, OnRunq(d))
    case RescheduleStep(c, t) => RescheduleAux(s, a, c, t)
    case _ => a
  }

  /** A thread back from its wait finds it satisfied and its block acquired. */
  lemma {:induction false} FinishReady(s: System, a: Aux, c: Cpu, t: Tid)
    requires WaitSide(s, a) && RunSide(s, a) && CanFinish(s, c, t)
    ensures FinishAsserts(s, t) && LocOf(a, t) == Nowhere && GrantOf(s.threads[t]) == Some(s.threads[t].pc.o)
  {
    NobodySignals(s, s.threads[t].pc.o);
    OnItsCpu(s, a, c, t);
    FitsNow(s, a, t);
    hide RunSide;
  }

  lemma {:induction false} WaitSteps(s: System, a: Aux, st: Step)
    requires WaitSide(s, a) && RunSide(s, a) && Enabled(s, st)
    requires !st.WakeStep? && !st.StartStep? && !st.RescheduleStep? && !st.SwitchDoneStep?
    ensures WaitSide(Next(s, st), NextAux(s, a, st))
  {
    hide WaitSide, RunSide;
    match st
    case BeginWaitStep(c, t, o) => BeginWaitWait(s, a, c, t, o);
    case LookStep(c, t) =>
      if 0 < s.objects[s.threads[t].pc.o].signalled {
        TakeWait(s, a, c, t);
      } else {
        EnqueueWait(s, a, c, t);
      }
    case ReturnStep(c, t) =>
      FitsNow(s, a, t);
      ReturnWait(s, a, t, s.threads[t].pc.o);
    case LockStep(c, t) => LockSelfWait(s, a, c, t);
    case CommitStep(c, t) =>
      RunningNow(s, a, c, t);
      CommitWait(s, a, c, t);
    case SleepStep(c, t) => SleepWait(s, a, c, t);
    case FinishStep(c, t) =>
      FinishReady(s, a, c, t);
      ReturnWait(s, a, t, s.threads[t].pc.o);
    case ReleaseStep(c, t, o, amount) => ReleaseWait(s, a, c, t, o, amount);
    case ReleaseMutexStep(c, t, o) => ReleaseMutexWait(s, a, c, t, o);
    case SignalStep(c, t) =>
      if Hands(s, t) {
        DequeueWait(s, a, t);
      } else {
        UnlockWait(s, a, t);
      }
    case TryStep(c, t) => TryWait(s, a, c, t);
    case AcquireStep(c, t) => AcquireWait(s, a, c, t);
    case PreemptStep(c, t) => PreemptWait(s, a, c, t);
    case ExitStep(c, t) => PreemptWait(s, a, c, t);
  }

  lemma {:induction false} RunningNow(s: System, a: Aux, c: Cpu, t: Tid)
    requires RunSide(s, a) && Executes(s, c, t)
    ensures StateFits(s.threads[t], OnCpu(c))
  {
  }

  lemma {:induction false} SwitchSteps(s: System, a: Aux, st: Step)
    requires WaitSide(s, a) && RunSide(s, a) && Enabled(s, st)
    requires st.WakeStep? || st.StartStep? || st.RescheduleStep? || st.SwitchDoneStep?
    ensures Asserts(s, st) && WaitSide(Next(s, st), NextAux(s, a, st)) && RunSide(Next(s, st), NextAux(s, a, st))
  {
    hide WaitSide, RunSide, Reschedule, RescheduleAux, SwitchDone, Start;
    match st
    case WakeStep(c, t, d) =>
      if s.threads[t].pc.wake == [] {
        WakeDoneWait(s, a, t, d);
        PlainRun(s, Wake(s, t, d), a, c, t);
      } else {
        SleeperReady(s, a, t);
        WakeWait(s, a, t, d);
        WakeRun(s, a, c, t, d);
      }
    case StartStep(c, t, h, d) =>
      StartWait(s, a, h, d);
      StartRun(s, a, c, t, h, d);
    case RescheduleStep(c, t) =>
      SwitchFacts(s, a, c, t);
      PickFacts(s, a, c, t);
      RescheduleWait(s, a, c, t);
      RescheduleRun(s, a, c, t);
    case SwitchDoneStep(c) =>
      PrevPlain(s, a, c);
      SwitchDoneWait(s, a, c);
      SwitchDoneRun(s, a, c);
  }

  /** The thread a step belongs to moves between positions outside its own lock. */
  predicate PlainStep(st: Step) {
    || st.BeginWaitStep? || st.LookStep? || st.ReturnStep? || st.FinishStep? || st.ReleaseStep? || st.ReleaseMutexStep?
    || st.SignalStep? || st.TryStep? || st.AcquireStep?
  }

  ghost predicate PlainlyMoves(s: System, s': System, c: Cpu, t: Tid) {
    && Executes(s, c, t) && SameRun(s, s', t) && Plain(s.threads[t].pc) && Plain(s'.threads[t].pc)
    && (IdleCan(s.threads[t]) ==> IdleCan(s'.threads[t]))
  }

  lemma {:induction false} PlainWaitSteps(s: System, st: Step)
    requires Enabled(s, st) && (st.BeginWaitStep? || st.LookStep? || st.ReturnStep? || st.FinishStep?)
    ensures PlainlyMoves(s, Next(s, st), st.c, st.t)
  {
  }

  lemma {:induction false} PlainReleaseSteps(s: System, st: Step)
    requires Enabled(s, st) && (st.ReleaseStep? || st.ReleaseMutexStep? || st.SignalStep?)
    ensures PlainlyMoves(s, Next(s, st), st.c, st.t)
  {
  }

  lemma {:induction false} PlainTryStep(s: System, c: Cpu, t: Tid)
    requires CanTry(s, c, t)
    ensures PlainlyMoves(s, Try(s, t), c, t)
  {
  }

  lemma {:induction false} PlainAcquireStep(s: System, c: Cpu, t: Tid)
    requires CanAcquire(s, c, t)
    ensures PlainlyMoves(s, AcquireFor(s, t), c, t)
  {
  }

  lemma {:induction false} PlainHandSteps(s: System, st: Step)
    requires Enabled(s, st) && (st.TryStep? || st.AcquireStep?)
    ensures PlainlyMoves(s, Next(s, st), st.c, st.t)
  {
    hide PlainlyMoves, Try, AcquireFor;
    if st.TryStep? {
      PlainTryStep(s, st.c, st.t);
    } else {
      PlainAcquireStep(s, st.c, st.t);
    }
  }

  lemma {:induction false} PlainSteps(s: System, st: Step)
    requires Enabled(s, st) && PlainStep(st)
    ensures PlainlyMoves(s, Next(s, st), st.c, st.t)
  {
    hide Enabled, Next, PlainlyMoves;
    if st.BeginWaitStep? || st.LookStep? || st.ReturnStep? || st.FinishStep? {
      PlainWaitSteps(s, st);
    } else if st.TryStep? || st.AcquireStep? {
      PlainHandSteps(s, st);
    } else {
      PlainReleaseSteps(s, st);
    }
  }

  lemma {:induction false} RunSteps(s: System, a: Aux, st: Step)
    requires WaitSide(s, a) && RunSide(s, a) && Enabled(s, st)
    requires !st.WakeStep? && !st.StartStep? && !st.RescheduleStep? && !st.SwitchDoneStep?
    ensures RunSide(Next(s, st), NextAux(s, a, st))
  {
    hide WaitSide, RunSide, LookAtObject, Return, Release, ReleaseMutex, SignalNext, Try, AcquireFor, BeginWait;
    if PlainStep(st) {
      PlainSteps(s, st);
      RunningNow(s, a, st.c, st.t);
      PlainRun(s, Next(s, st), a, st.c, st.t);
      SameAuxRun(Next(s, st), a, NextAux(s, a, st));
    } else {
      match st
      case LockStep(c, t) => LockSelfRun(s, a, c, t);
      case CommitStep(c, t) => CommitRun(s, a, c, t);
      case SleepStep(c, t) => SleepRun(s, a, c, t);
      case PreemptStep(c, t) => PreemptRun(s, a, c, t);
      case ExitStep(c, t) => PreemptRun(s, a, c, t);
    }
  }

  /** Steps in which nobody is granted anything. */
  predicate NoGrantStep(st: Step) {
    !st.LookStep? && !st.ReturnStep? && !st.FinishStep? && !st.ReleaseStep? && !st.ReleaseMutexStep? && !st.AcquireStep?
  }

  lemma {:induction false} NoGrantStepFacts(s: System, a: Aux, st: Step)
    requires WaitSide(s, a) && Enabled(s, st) && NoGrantStep(st) && !st.TryStep? && !st.RescheduleStep?
    ensures NoGrants(s, Next(s, st))
  {
    hide WaitSide;
  }

  lemma {:induction false} RescheduleGrants(s: System, c: Cpu, t: Tid)
    requires CanReschedule(s, c, t)
    ensures NoGrants(s, Reschedule(s, c, t))
  {
  }

  lemma {:induction false} TryGrants(s: System, a: Aux, c: Cpu, t: Tid)
    requires WaitSide(s, a) && CanTry(s, c, t)
    ensures NoGrants(s, Try(s, t))
  {
    hide WaitSide;
    InHand(s, a, t);
  }

  lemma {:induction false} LedgerSteps(s: System, a: Aux, st: Step)
    requires WaitSide(s, a) && RunSide(s, a) && Ledgers(s) && Enabled(s, st)
    ensures Ledgers(Next(s, st)) && (st.FinishStep? || st.ReleaseMutexStep? ==> Asserts(s, st))
  {
    hide WaitSide, RunSide, Ledgers, NoGrants, LookAtObject, Return, Release, ReleaseMutex, AcquireFor, Try, Reschedule;
    match st
    case LookStep(c, t) => TakeLedgers(s, a, c, t);
    case ReturnStep(c, t) => ReturnLedgers(s, t, s.threads[t].pc.o);
    case FinishStep(c, t) =>
      FinishReady(s, a, c, t);
      ReturnLedgers(s, t, s.threads[t].pc.o);
    case ReleaseStep(c, t, o, amount) => ReleaseLedgers(s, c, t, o, amount);
    case ReleaseMutexStep(c, t, o) =>
      CountNonNegative(s, a, o);
      ReleaseMutexLedgers(s, c, t, o);
    case AcquireStep(c, t) => AcquireLedgers(s, a, c, t);
    case TryStep(c, t) =>
      TryGrants(s, a, c, t);
      NoGrantsKeeps(s, Next(s, st));
    case RescheduleStep(c, t) =>
      RescheduleGrants(s, c, t);
      NoGrantsKeeps(s, Next(s, st));
    case _ =>
      NoGrantStepFacts(s, a, st);
      NoGrantsKeeps(s, Next(s, st));
  }

  lemma {:induction false} CountNonNegative(s: System, a: Aux, o: Obj)
    requires WaitSide(s, a) && o in s.objects
    ensures 0 <= s.objects[o].signalled
  {
  }

  /** Every step, whoever takes it: the kernel's assertions hold and the invariant
      is kept. */
  lemma {:induction false} StepSafe(s: System, a: Aux, st: Step)
    requires Inv(s, a) && Enabled(s, st)
    ensures Asserts(s, st) && Inv(Next(s, st), NextAux(s, a, st))
  {
    hide WaitSide, RunSide, TokensOk, MutexesOk, Enabled, Next, NextAux;
    LedgerSteps(s, a, st);
    if st.WakeStep? || st.StartStep? || st.RescheduleStep? || st.SwitchDoneStep? {
      SwitchSteps(s, a, st);
    } else {
      WaitSteps(s, a, st);
      RunSteps(s, a, st);
    }
  }

  // --------------------------------------------------------------------- runs

  predicate Runs(s: System, steps: seq<Step>)
    decreases |steps|
  {
    steps == [] || (Enabled(s, steps[0]) && Runs(Next(s, steps[0]), steps[1..]))
  }

  /** Every assertion the kernel evaluates along the run holds. */
  predicate AllAssert(s: System, steps: seq<Step>)
    requires Runs(s, steps)
    decreases |steps|
  {
    steps == [] || (Asserts(s, steps[0]) && AllAssert(Next(s, steps[0]), steps[1..]))
  }

  function Final(s: System, steps: seq<Step>): System
    requires Runs(s, steps)
    decreases |steps|
  {
    if steps == [] then s else Final(Next(s, steps[0]), steps[1..])
  }

  /** All processors idle, no thread started, every object as it is initialised. */
  ghost predicate Init(s: System) {
    && (forall t :: t in s.threads ==>
          var th := s.threads[t];
          && th.lock.Free? && th.owns == {}
          && (th.idleOf.None? ==> th.state.Initial? && th.pc.Unstarted?)
          && (th.idleOf.Some? ==> th.state.Running? && th.pc.Outside? && th.idleOf.value in s.cpus
                                  && s.cpus[th.idleOf.value].idle == t))
    && (forall o :: o in s.objects ==>
          var ob := s.objects[o];
          && ob.queue == [] && ob.holder.None? && ob.owner.None? && ob.returned == 0 && ob.added == ob.signalled
          && (if ob.mutex then ob.signalled == 1 else 0 <= ob.signalled))
    && (forall c :: c in s.cpus ==>
          var p := s.cpus[c];
          && p.idle in s.threads && s.threads[p.idle].idleOf == Some(c) && p.cur == p.idle && p.runq == []
          && !p.switching)
  }

  function InitAux(s: System): Aux {
    Aux(map[], map t | t in s.threads && s.threads[t].idleOf.Some? :: OnCpu(s.threads[t].idleOf.value))
  }

  lemma {:induction false} InitWait(s: System)
    requires Init(s)
    ensures WaitSide(s, InitAux(s))
  {
  }

  lemma {:induction false} InitRun(s: System)
    requires Init(s)
    ensures RunSide(s, InitAux(s))
  {
  }

  lemma {:induction false} InitLedgers(s: System)
    requires Init(s)
    ensures Ledgers(s)
  {
    forall o ensures Granted(s, o) == {} {
      forall t ensures t !in Granted(s, o) {
        assert t in s.threads ==> GrantOf(s.threads[t]).None?;
      }
    }
  }

  /** From the invariant on, every run keeps it and trips no assertion. */
  lemma {:induction false} RunKeeps(s: System, a: Aux, steps: seq<Step>)
    requires Inv(s, a) && Runs(s, steps)
    ensures AllAssert(s, steps) && exists a' :: Inv(Final(s, steps), a')
    decreases |steps|
  {
    hide Inv, Enabled, Next, NextAux, Asserts;
    if steps == [] {
      assert Inv(Final(s, steps), a);
    } else {
      StepSafe(s, a, steps[0]);
      RunKeeps(Next(s, steps[0]), NextAux(s, a, steps[0]), steps[1..]);
      var a' :| Inv(Final(Next(s, steps[0]), steps[1..]), a');
      assert Inv(Final(s, steps), a');
    }
  }

  lemma {:induction false} RunSafe(s: System, steps: seq<Step>)
    requires Init(s) && Runs(s, steps)
    ensures AllAssert(s, steps) && exists a :: Inv(Final(s, steps), a)
  {
    hide WaitSide, RunSide, TokensOk, MutexesOk, Runs, AllAssert, Init;
    InitWait(s);
    InitRun(s);
    InitLedgers(s);
    RunKeeps(s, InitAux(s), steps);
  }

  // ------------------------------------------------- what the invariant promises

  /** The tokens a step adds to an object: what a semaphore release asks for, one if a
      release to at most one finds none, one for a mutex. */
  function TokensOf(s: System, st: Step, o: Obj): nat
    requires o in s.objects
  {
    match st
    case ReleaseStep(_, _, x, Add(n)) => if x == o then n else 0
    case ReleaseStep(_, _, x, MaxOne) => if x == o && s.objects[o].signalled == 0 then 1 else 0
    case ReleaseMutexStep(_, _, x) => if x == o then 1 else 0
    case _ => 0
  }

  /** The step ends a wait on the object. */
  predicate EndsWait(s: System, st: Step, o: Obj) {
    (st.ReturnStep? || st.FinishStep?) && st.t in s.threads && WaitOf(s.threads[st.t].pc) == Some(o)
  }

  function WaitOf(pc: Pc): Option<Obj> {
    match pc
    case Got(o) => Some(o)
    case Finish(o) => Some(o)
    case _ => None
  }

  lemma {:induction false} StepTokens(s: System, st: Step, o: Obj)
    requires Enabled(s, st) && o in s.objects
    ensures var s' := Next(s, st);
            && o in s'.objects && s'.objects[o].added == s.objects[o].added + TokensOf(s, st, o)
            && s'.objects[o].returned == s.objects[o].returned + B(EndsWait(s, st, o))
            && ((st.ReleaseStep? || st.ReleaseMutexStep?) ==>
                  s'.objects[o].signalled == s.objects[o].signalled + TokensOf(s, st, o))
            && (st.ReleaseStep? && st.o == o && st.amount.Add? ==>
                  && s'.objects[o].signalled == s.objects[o].signalled + st.amount.n
                  && s'.objects[o].added == s.objects[o].added + st.amount.n)
            && (st.ReleaseStep? && st.o == o && st.amount.MaxOne? && s.objects[o].signalled == 0 ==>
                  s'.objects[o].signalled == 1 && s'.objects[o].added == s.objects[o].added + 1)
            && (st.ReleaseStep? && st.o == o && st.amount.MaxOne? && s.objects[o].signalled != 0 ==>
                  s'.objects[o].signalled == s.objects[o].signalled && s'.objects[o].added == s.objects[o].added)
  {
  }

  /** The tokens a run adds to an object. */
  function TokensIn(s: System, steps: seq<Step>, o: Obj): nat
    requires Runs(s, steps) && o in s.objects
    decreases |steps|
  {
    if steps == [] then 0
    else
      StepTokens(s, steps[0], o);
      TokensOf(s, steps[0], o) + TokensIn(Next(s, steps[0]), steps[1..], o)
  }

  /** The waits on an object that end in a run. */
  function WaitsIn(s: System, steps: seq<Step>, o: Obj): nat
    requires Runs(s, steps) && o in s.objects
    decreases |steps|
  {
    if steps == [] then 0
    else
      StepTokens(s, steps[0], o);
      B(EndsWait(s, steps[0], o)) + WaitsIn(Next(s, steps[0]), steps[1..], o)
  }

  lemma {:induction false} RunTokens(s: System, steps: seq<Step>, o: Obj)
    requires Runs(s, steps) && o in s.objects
    ensures o in Final(s, steps).objects
    ensures Final(s, steps).objects[o].added == s.objects[o].added + TokensIn(s, steps, o)
    ensures Final(s, steps).objects[o].returned == s.objects[o].returned + WaitsIn(s, steps, o)
    decreases |steps|
  {
    hide Next, Enabled, TokensOf, EndsWait;
    if steps != [] {
      StepTokens(s, steps[0], o);
      RunTokens(Next(s, steps[0]), steps[1..], o);
    }
  }

  /** Tokens are conserved: those an object starts with and those the releases of the run
      add are left, have ended a wait, or are a thread's that has not returned from its
      wait yet. Outside the object's lock a positive count means that nobody is queued. */
  lemma {:induction false} Conservation(s: System, steps: seq<Step>, o: Obj)
    requires Init(s) && Runs(s, steps) && o in s.objects
    ensures o in Final(s, steps).objects
    ensures var s' := Final(s, steps);
            var ob := s'.objects[o];
            && s.objects[o].signalled + TokensIn(s, steps, o) ==
               ob.signalled + WaitsIn(s, steps, o) + |Granted(s', o)|
            && 0 <= ob.signalled && (ob.holder.None? && 0 < ob.signalled ==> ob.queue == [])
  {
    assert s.objects[o].added == s.objects[o].signalled && s.objects[o].returned == 0;
    hide Init, Runs, Final, TokensIn, WaitsIn;
    RunTokens(s, steps, o);
    RunSafe(s, steps);
    var a :| Inv(Final(s, steps), a);
  }

  /** The releasing threads that have a thread's wait block in hand or on their wake
      list. */
  ghost function HandsOf(s: System, t: Tid): set<Tid> {
    set r | r in s.threads && (Flight(s.threads[r].pc) == Some(t) || t in WakeList(s.threads[r].pc))
  }

  lemma {:induction false} HandsAre(s: System, a: Aux, t: Tid)
    requires QueuesOk(s, a) && FlightsOk(s, a)
    ensures HandsOf(s, t) == (if LocOf(a, t).InFlight? || LocOf(a, t).InWake? then {LocOf(a, t).r} else {})
  {
    forall r ensures r in HandsOf(s, t) <==> (LocOf(a, t).InFlight? || LocOf(a, t).InWake?) && LocOf(a, t).r == r {
      if r in s.threads {
        assert Flight(s.threads[r].pc) == Some(t) <==> LocOf(a, t) == InFlight(r);
        assert t in WakeList(s.threads[r].pc) <==> LocOf(a, t) == InWake(r);
      }
    }
  }

  /** No wake-up is lost: a thread asleep in a wait is queued on its object once, or
      exactly one releasing thread will wake it, and never both. While it is queued
      and the object is unlocked there is no token for it. */
  lemma {:induction false} SleeperAccounted(s: System, steps: seq<Step>, t: Tid)
    requires Init(s) && Runs(s, steps) && t in Final(s, steps).threads
    requires Final(s, steps).threads[t].state.Waiting? && Final(s, steps).threads[t].pc.Finish?
    ensures var s' := Final(s, steps);
            var o := s'.threads[t].pc.o;
            && o in s'.objects && B(t in s'.objects[o].queue) + |HandsOf(s', t)| == 1
            && (t in s'.objects[o].queue && s'.objects[o].holder.None? ==> s'.objects[o].signalled == 0)
  {
    hide Init, Runs, Final;
    RunSafe(s, steps);
    var s' := Final(s, steps);
    var a :| Inv(s', a);
    SleeperIs(s', a, t);
  }

  lemma {:induction false} SleeperIs(s: System, a: Aux, t: Tid)
    requires WaitSide(s, a) && t in s.threads && s.threads[t].state.Waiting? && s.threads[t].pc.Finish?
    ensures var o := s.threads[t].pc.o;
            && o in s.objects && B(t in s.objects[o].queue) + |HandsOf(s, t)| == 1
            && (t in s.objects[o].queue && s.objects[o].holder.None? ==> s.objects[o].signalled == 0)
  {
    FitsNow(s, a, t);
    HandsAre(s, a, t);
    hide WaitsOk, FlightsOk;
    assert t in s.objects[s.threads[t].pc.o].queue <==> LocOf(a, t) == InQueue(s.threads[t].pc.o);
  }

  /** At most one thread has acquired a mutex and not released it; it is the owner,
      and no token is left. */
  lemma {:induction false} MutualExclusion(s: System, steps: seq<Step>, o: Obj, t: Tid, u: Tid)
    requires Init(s) && Runs(s, steps)
    requires t in Final(s, steps).threads && o in Final(s, steps).threads[t].owns
    requires u in Final(s, steps).threads && o in Final(s, steps).threads[u].owns
    ensures t == u && o in Final(s, steps).objects
    ensures Final(s, steps).objects[o].owner == Some(t) && Final(s, steps).objects[o].signalled == 0
  {
    hide Init, Runs, Final;
    RunSafe(s, steps);
    var a :| Inv(Final(s, steps), a);
    CountNonNegative(Final(s, steps), a, o);
    hide WaitSide, RunSide;
  }

  ghost function RunningOn(s: System, t: Tid): set<Cpu> {
    set c | c in s.cpus && s.cpus[c].cur == t
  }

  ghost function QueuedOn(s: System, t: Tid): set<Cpu> {
    set c | c in s.cpus && t in s.cpus[c].runq
  }

  lemma {:induction false} PlacesAre(s: System, a: Aux, t: Tid)
    requires ListsOk(s, a) && (!PlaceOf(a, t).OffCpu? ==> PlaceOf(a, t).c in s.cpus)
    ensures RunningOn(s, t) == (if PlaceOf(a, t).OnCpu? then {PlaceOf(a, t).c} else {})
    ensures QueuedOn(s, t) == (if PlaceOf(a, t).OnRunq? then {PlaceOf(a, t).c} else {})
  {
    forall c
      ensures c in RunningOn(s, t) <==> PlaceOf(a, t).OnCpu? && c == PlaceOf(a, t).c
      ensures c in QueuedOn(s, t) <==> PlaceOf(a, t).OnRunq? && c == PlaceOf(a, t).c
    {
      if c in s.cpus {
        assert s.cpus[c].cur == t <==> PlaceOf(a, t) == OnCpu(c);
        assert t in s.cpus[c].runq <==> PlaceOf(a, t) == OnRunq(c);
      }
    }
  }

  lemma {:induction false} FitsPlace(s: System, a: Aux, t: Tid)
    requires StatesOk(s, a) && t in s.threads
    ensures StateFits(s.threads[t], PlaceOf(a, t))
  {
  }

  /** Every thread but the idle ones is on one processor, or once on one run queue,
      or on neither because it sleeps, has ended or has not started. */
  lemma {:induction false} OnePlace(s: System, steps: seq<Step>, t: Tid)
    requires Init(s) && Runs(s, steps) && t in Final(s, steps).threads && Final(s, steps).threads[t].idleOf.None?
    ensures var s' := Final(s, steps);
            var th := s'.threads[t];
            && |RunningOn(s', t)| + |QueuedOn(s', t)| ==
               B(!(th.pc.Unstarted? || th.pc.Gone? || (th.pc.Finish? && th.state.Waiting?)))
            && (|QueuedOn(s', t)| == 1 <==> th.state.Runnable? || (th.state.Initial? && !th.pc.Unstarted?))
            && (forall c :: c in s'.cpus ==> Distinct(s'.cpus[c].runq))
  {
    hide Init, Runs, Final;
    RunSafe(s, steps);
    var s' := Final(s, steps);
    var a :| Inv(s', a);
    hide WaitSide, LocksOk, TokensOk, MutexesOk;
    PlacesAre(s', a, t);
    FitsPlace(s', a, t);
    hide StatesOk, RunningOn, QueuedOn;
  }

  lemma {:induction false} SwitchOut(s: System, a: Aux, c: Cpu, d: Cpu)
    requires ListsOk(s, a) && LocksOk(s, a) && c in s.cpus && d in s.cpus && s.cpus[c].switching && c != d
    ensures var t := s.cpus[c].prev;
            && t in s.threads && s.threads[t].lock == HeldBy(c)
            && s.cpus[d].cur != t && t !in s.cpus[d].runq && (s.cpus[d].switching ==> s.cpus[d].prev != t)
  {
    assert LockOk(s, a, s.cpus[c].prev);
  }

  /** While a processor is still switching away from a thread, no other runs it and
      none but its own queue holds it, and nobody can wake it. */
  lemma {:induction false} SwitchOutFirst(s: System, steps: seq<Step>, c: Cpu, d: Cpu)
    requires Init(s) && Runs(s, steps) && c in Final(s, steps).cpus && d in Final(s, steps).cpus
    requires Final(s, steps).cpus[c].switching && c != d
    ensures var s' := Final(s, steps);
            var t := s'.cpus[c].prev;
            && t in s'.threads && s'.threads[t].lock == HeldBy(c)
            && s'.cpus[d].cur != t && t !in s'.cpus[d].runq && (s'.cpus[d].switching ==> s'.cpus[d].prev != t)
  {
    hide Init, Runs, Final;
    RunSafe(s, steps);
    var s' := Final(s, steps);
    var a :| Inv(s', a);
    hide WaitSide, ListsOk, LocksOk, StatesOk;
    SwitchOut(s', a, c, d);
  }
}
