/**
  The dispatcher's invariant. Two auxiliary maps say which list holds a thread's
  wait block and which list or processor holds the thread; no step reads them.
 */
module DispatcherInvariant {
  import opened Queues
  import opened Options
  import opened Dispatcher

  /** Which list a thread's wait block is on: an object's queue, between queue and
      acquisition in the hands of a releasing thread, or that thread's wake list. */
  datatype Loc = Nowhere | InQueue(o: Obj) | InFlight(r: Tid) | InWake(r: Tid)

  datatype Place = OffCpu | OnCpu(c: Cpu) | OnRunq(c: Cpu)

  datatype Aux = Aux(loc: map<Tid, Loc>, place: map<Tid, Place>)

  function LocOf(a: Aux, t: Tid): Loc {
    if t in a.loc then a.loc[t] else Nowhere
  }

  function PlaceOf(a: Aux, t: Tid): Place {
    if t in a.place then a.place[t] else OffCpu
  }

  // ---------------------------------------------------------- reading a thread

  /** The object a thread's wait block is or was queued on in this wait. */
  function WaitsOn(pc: Pc): Option<Obj> {
    match pc
    case Queued(o) => Some(o)
    case Locked(o) => Some(o)
    case Committing(o) => Some(o)
    case Sleeping(o) => Some(o)
    case Finish(o) => Some(o)
    case _ => None
  }

  /** The object whose lock a releasing thread holds. */
  function Signals(pc: Pc): Option<Obj> {
    match pc
    case Signal(o, _) => Some(o)
    case TryPreparing(o, _, _) => Some(o)
    case TryWaiting(o, _, _) => Some(o)
    case Recheck(o, _, _) => Some(o)
    case Acquire(o, _, _, _) => Some(o)
    case _ => None
  }

  /** The waiter a releasing thread has taken off the queue. */
  function Flight(pc: Pc): Option<Tid> {
    match pc
    case TryPreparing(_, _, t) => Some(t)
    case TryWaiting(_, _, t) => Some(t)
    case Recheck(_, _, t) => Some(t)
    case Acquire(_, _, t, _) => Some(t)
    case _ => None
  }

  function WakeList(pc: Pc): seq<Tid> {
    match pc
    case Signal(_, wake) => wake
    case TryPreparing(_, wake, _) => wake
    case TryWaiting(_, wake, _) => wake
    case Recheck(_, wake, _) => wake
    case Acquire(_, wake, _, _) => wake
    case WakeUp(wake) => wake
    case _ => []
  }

  /** The thread has won its compare-and-swap and sleeps until it is woken. */
  predicate Committed(th: Thread) {
    th.pc.Committing? || th.pc.Sleeping? || (th.pc.Finish? && th.state.Waiting?)
  }

  /** The thread holds its own lock and has not been switched out. */
  predicate HoldsOwn(pc: Pc) {
    pc.Locked? || pc.Committing? || pc.Sleeping? || pc.Preempt? || pc.Exit?
  }

  // ------------------------------------------------------------- the wait side

  ghost predicate QueuesOk(s: System, a: Aux) {
    && (forall o, t :: o in s.objects ==> (t in s.objects[o].queue <==> LocOf(a, t) == InQueue(o)))
    && (forall o :: o in s.objects ==> Distinct(s.objects[o].queue))
    && (forall t :: LocOf(a, t).InFlight? || LocOf(a, t).InWake? ==> LocOf(a, t).r in s.threads)
  }

  ghost predicate FlightsOk(s: System, a: Aux) {
    && (forall r, t :: r in s.threads ==> (Flight(s.threads[r].pc) == Some(t) <==> LocOf(a, t) == InFlight(r)))
    && (forall r, t :: r in s.threads ==> (t in WakeList(s.threads[r].pc) <==> LocOf(a, t) == InWake(r)))
    && (forall r :: r in s.threads ==> Distinct(WakeList(s.threads[r].pc)))
    && (forall t :: t !in s.threads ==> LocOf(a, t) == Nowhere)
  }

  /** A wait block still on the queue has the status its thread last gave it. */
  predicate Unsatisfied(th: Thread) {
    && th.block.Active? && th.wait == (if Committed(th) then InWait else Preparing)
    && (th.pc.Finish? ==> th.state.Waiting?)
  }

  /** What a thread's position in its wait, the list its wait block is on and, if
      a releasing thread has it in hand, where that thread stands, say of it. */
  predicate WaitFits(th: Thread, l: Loc, rpc: Pc) {
    match WaitsOn(th.pc)
    case None => l == Nowhere && (th.pc.Prepare? ==> th.wait.Preparing?)
    case Some(o) =>
      match l
      case Nowhere => !Committed(th) && th.wait.Satisfied? && th.block.Acquired?
      case InQueue(q) => q == o && Unsatisfied(th)
      case InWake(_) => Committed(th) && th.wait.Satisfied? && th.block.Acquired?
      case InFlight(_) =>
        && Signals(rpc) == Some(o)
        && match rpc
           case TryPreparing(_, _, _) => Unsatisfied(th)
           case TryWaiting(_, _, _) => Unsatisfied(th) && Committed(th)
           case Acquire(_, _, _, mid) => th.wait.Satisfied? && th.block.Active? && (mid <==> Committed(th))
           case _ => false
  }

  /** Where the thread that has a wait block in hand stands. */
  function HandPc(s: System, l: Loc): Pc {
    if l.InFlight? && l.r in s.threads then s.threads[l.r].pc else Outside
  }

  ghost predicate WaitsOk(s: System, a: Aux) {
    forall t :: t in s.threads ==> WaitFits(s.threads[t], LocOf(a, t), HandPc(s, LocOf(a, t)))
  }

  /** A count is positive while a waiter is queued only under the object's lock. */
  ghost predicate ObjectsOk(s: System) {
    && (forall o :: o in s.objects ==>
          && 0 <= s.objects[o].signalled
          && (s.objects[o].holder.None? && 0 < s.objects[o].signalled ==> s.objects[o].queue == []))
    && (forall o, r :: o in s.objects && r in s.threads ==>
          (s.objects[o].holder == Some(r) <==> Signals(s.threads[r].pc) == Some(o)))
    && (forall o :: o in s.objects && s.objects[o].holder.Some? ==> s.objects[o].holder.value in s.threads)
    && (forall r :: r in s.threads && Flight(s.threads[r].pc).Some? ==>
          s.threads[r].pc.o in s.objects && 0 < s.objects[s.threads[r].pc.o].signalled)
    && (forall t :: t in s.threads ==>
          && (WaitsOn(s.threads[t].pc).Some? ==> s.threads[t].pc.o in s.objects)
          && (Signals(s.threads[t].pc).Some? ==> s.threads[t].pc.o in s.objects)
          && (s.threads[t].pc.Got? || s.threads[t].pc.Prepare? ==> s.threads[t].pc.o in s.objects))
  }

  ghost predicate WaitSide(s: System, a: Aux) {
    QueuesOk(s, a) && FlightsOk(s, a) && WaitsOk(s, a) && ObjectsOk(s)
  }

  // -------------------------------------------------------------- the run side

  ghost predicate ListsOk(s: System, a: Aux) {
    && (forall c, t :: c in s.cpus ==> (s.cpus[c].cur == t <==> PlaceOf(a, t) == OnCpu(c)))
    && (forall c, t :: c in s.cpus ==> (t in s.cpus[c].runq <==> PlaceOf(a, t) == OnRunq(c)))
    && (forall c :: c in s.cpus ==> Distinct(s.cpus[c].runq))
    && (forall t :: t !in s.threads ==> PlaceOf(a, t) == OffCpu)
    && (forall t :: t in s.threads && !PlaceOf(a, t).OffCpu? ==> PlaceOf(a, t).c in s.cpus)
  }

  /** What a thread's place says about its state and where its code stands. */
  predicate StateFits(th: Thread, place: Place) {
    if th.idleOf.Some? then
      && th.state.Running? && (place == OnCpu(th.idleOf.value) || (place.OffCpu? && th.pc.Outside?))
      && WaitsOn(th.pc).None? && !th.pc.Prepare? && !th.pc.Got? && !th.pc.Exit? && !th.pc.Gone? && !th.pc.Unstarted?
    else
      match place
      case OnCpu(c) =>
        && !th.pc.Unstarted? && !th.pc.Gone?
        && th.state == (if th.pc.Sleeping? then Waiting else if th.pc.Exit? then Done else Running)
      case OnRunq(c) => (th.state.Runnable? || th.state.Initial?) && (th.pc.Outside? || th.pc.Finish?)
      case OffCpu =>
        || (th.state.Waiting? && th.pc.Finish?)
        || (th.state.Done? && th.pc.Gone?)
        || (th.state.Initial? && th.pc.Unstarted?)
  }

  ghost predicate StatesOk(s: System, a: Aux) {
    && (forall t :: t in s.threads ==> StateFits(s.threads[t], PlaceOf(a, t)))
    && (forall c :: c in s.cpus ==> s.cpus[c].idle in s.threads && s.threads[s.cpus[c].idle].idleOf == Some(c))
    && (forall t :: t in s.threads && s.threads[t].idleOf.Some? ==>
          s.threads[t].idleOf.value in s.cpus && s.cpus[s.threads[t].idleOf.value].idle == t)
  }

  /** Who holds a thread's lock: nobody; its own processor, on its way to sleep or
      be switched out; or that processor still switching away from it. */
  ghost predicate LockOk(s: System, a: Aux, t: Tid)
    requires t in s.threads
  {
    match s.threads[t].lock
    case Free => !HoldsOwn(s.threads[t].pc)
    case HeldBy(c) =>
      && c in s.cpus && (s.threads[t].idleOf.Some? ==> s.threads[t].idleOf.value == c)
      && (if HoldsOwn(s.threads[t].pc) then PlaceOf(a, t) == OnCpu(c) && !s.cpus[c].switching
          else s.cpus[c].switching && s.cpus[c].prev == t
               && (PlaceOf(a, t) == OnCpu(c) || PlaceOf(a, t) == OnRunq(c) || PlaceOf(a, t) == OffCpu))
  }

  ghost predicate LocksOk(s: System, a: Aux) {
    && (forall t :: t in s.threads ==> LockOk(s, a, t))
    && (forall c :: c in s.cpus && s.cpus[c].switching ==>
          s.cpus[c].prev in s.threads && s.threads[s.cpus[c].prev].lock == HeldBy(c))
    && (forall c :: c in s.cpus ==> s.cpus[c].cur in s.threads)
    && (forall c :: c in s.cpus && s.cpus[c].switching ==>
          s.threads[s.cpus[c].cur].pc.Outside? || s.threads[s.cpus[c].cur].pc.Finish?)
  }

  ghost predicate RunSide(s: System, a: Aux) {
    ListsOk(s, a) && StatesOk(s, a) && LocksOk(s, a)
  }

  // ------------------------------------------------------------ tokens, mutexes

  /** The object of which the thread has been given a token, while it has not yet
      returned from its wait. */
  function GrantOf(th: Thread): Option<Obj> {
    if th.pc.Got? then Some(th.pc.o) else if th.block.Acquired? then WaitsOn(th.pc) else None
  }

  ghost function Granted(s: System, o: Obj): set<Tid> {
    set t | t in s.threads && GrantOf(s.threads[t]) == Some(o)
  }

  ghost predicate TokensOk(s: System) {
    forall o :: o in s.objects ==>
      s.objects[o].added == s.objects[o].signalled + s.objects[o].returned + |Granted(s, o)|
  }

  ghost predicate MutexesOk(s: System) {
    && (forall o :: o in s.objects && s.objects[o].mutex ==>
          s.objects[o].signalled <= 1 && (s.objects[o].signalled == 1 <==> s.objects[o].owner.None?))
    && (forall o, t :: o in s.objects && s.objects[o].mutex && t in s.threads ==>
          ((o in s.threads[t].owns || GrantOf(s.threads[t]) == Some(o)) <==> s.objects[o].owner == Some(t)))
    && (forall o, t :: t in s.threads && o in s.threads[t].owns ==> o in s.objects && s.objects[o].mutex)
  }

  ghost predicate Inv(s: System, a: Aux) {
    WaitSide(s, a) && RunSide(s, a) && TokensOk(s) && MutexesOk(s)
  }

  function Put(a: Aux, t: Tid, l: Loc): Aux {
    a.(loc := a.loc[t := l])
  }

  function Move(a: Aux, t: Tid, p: Place): Aux {
    a.(place := a.place[t := p])
  }

  // ----------------------------------------------- steps of one thread's wait

  /** Nothing a releasing thread has in hand changes. */
  predicate SameHand(th: Thread, th': Thread) {
    Signals(th'.pc) == Signals(th.pc) && Flight(th'.pc) == Flight(th.pc) && WakeList(th'.pc) == WakeList(th.pc)
  }

  /** The objects a thread's position mentions exist. */
  predicate Mentions(s: System, pc: Pc) {
    (WaitsOn(pc).Some? || Signals(pc).Some? || pc.Got? || pc.Prepare?) ==> pc.o in s.objects
  }

  lemma {:induction false} SameHandFlights(s: System, a: Aux, t: Tid, th: Thread)
    requires FlightsOk(s, a) && t in s.threads && SameHand(s.threads[t], th)
    ensures FlightsOk(WithThread(s, t, th), a)
  {
  }

  lemma {:induction false} SameHandObjects(s: System, t: Tid, th: Thread)
    requires ObjectsOk(s) && t in s.threads && SameHand(s.threads[t], th) && Mentions(s, th.pc)
    ensures ObjectsOk(WithThread(s, t, th))
  {
  }

  lemma {:induction false} EmptyHandWaits(s: System, a: Aux, t: Tid, th: Thread)
    requires WaitsOk(s, a) && FlightsOk(s, a) && t in s.threads && Flight(s.threads[t].pc).None?
    requires SameHand(s.threads[t], th)
    requires WaitFits(th, LocOf(a, t), HandPc(s, LocOf(a, t)))
    ensures WaitsOk(WithThread(s, t, th), a)
  {
  }

  /** A step that changes one thread, which has no other's wait block in hand. */
  lemma {:induction false} OwnStepWait(s: System, a: Aux, t: Tid, th: Thread)
    requires WaitSide(s, a) && t in s.threads && Flight(s.threads[t].pc).None? && SameHand(s.threads[t], th)
    requires Mentions(s, th.pc) && WaitFits(th, LocOf(a, t), HandPc(s, LocOf(a, t)))
    ensures WaitSide(WithThread(s, t, th), a)
  {
    hide QueuesOk, FlightsOk, WaitsOk, ObjectsOk, WaitFits, SameHand, Mentions;
    EmptyHandWaits(s, a, t, th);
    SameHandFlights(s, a, t, th);
    SameHandObjects(s, t, th);
    SameQueues(s, a, t, th);
  }

  lemma {:induction false} SameQueues(s: System, a: Aux, t: Tid, th: Thread)
    requires QueuesOk(s, a)
    ensures QueuesOk(WithThread(s, t, th), a)
  {
  }

  lemma {:induction false} FitsNow(s: System, a: Aux, t: Tid)
    requires WaitSide(s, a) && t in s.threads
    ensures WaitFits(s.threads[t], LocOf(a, t), HandPc(s, LocOf(a, t))) && Mentions(s, s.threads[t].pc)
  {
  }

  lemma {:induction false} BeginWaitWait(s: System, a: Aux, c: Cpu, t: Tid, o: Obj)
    requires WaitSide(s, a) && CanBeginWait(s, c, t, o)
    ensures WaitSide(BeginWait(s, t, o), a)
  {
    hide WaitSide;
    FitsNow(s, a, t);
    OwnStepWait(s, a, t, s.threads[t].(wait := Preparing, pc := Prepare(o)));
  }

  lemma {:induction false} LockSelfWait(s: System, a: Aux, c: Cpu, t: Tid)
    requires WaitSide(s, a) && CanLockSelf(s, c, t)
    ensures WaitSide(LockSelf(s, c, t), a)
  {
    hide WaitSide;
    FitsNow(s, a, t);
    OwnStepWait(s, a, t, s.threads[t].(lock := HeldBy(c), pc := Locked(s.threads[t].pc.o)));
  }

  lemma {:induction false} CommitWait(s: System, a: Aux, c: Cpu, t: Tid)
    requires WaitSide(s, a) && CanCommit(s, c, t) && !s.threads[t].state.Waiting?
    ensures WaitSide(Commit(s, t), a)
  {
    hide WaitSide;
    FitsNow(s, a, t);
    OwnStepWait(s, a, t, Commit(s, t).threads[t]);
  }

  lemma {:induction false} SleepWait(s: System, a: Aux, c: Cpu, t: Tid)
    requires WaitSide(s, a) && CanSleep(s, c, t)
    ensures WaitSide(Sleep(s, t), a)
  {
    hide WaitSide;
    FitsNow(s, a, t);
    OwnStepWait(s, a, t, Sleep(s, t).threads[t]);
  }

  lemma {:induction false} PreemptWait(s: System, a: Aux, c: Cpu, t: Tid)
    requires WaitSide(s, a) && CanPreempt(s, c, t)
    ensures WaitSide(BeginPreempt(s, c, t), a) && WaitSide(BeginExit(s, c, t), a)
  {
    hide WaitSide;
    FitsNow(s, a, t);
    OwnStepWait(s, a, t, BeginPreempt(s, c, t).threads[t]);
    OwnStepWait(s, a, t, BeginExit(s, c, t).threads[t]);
  }

  // ------------------------------------------- steps that change an object too

  /** The object's queue, lock and the sign of its count are as the others need. */
  predicate Harmless(ob: Object, ob': Object) {
    && ob'.queue == ob.queue && ob'.holder == ob.holder
    && 0 <= ob'.signalled && (ob'.signalled <= ob.signalled || ob.holder.Some?)
  }

  lemma {:induction false} HarmlessWait(s: System, a: Aux, o: Obj, ob: Object)
    requires WaitSide(s, a) && o in s.objects && Harmless(s.objects[o], ob)
    requires forall r :: r in s.threads && Flight(s.threads[r].pc).Some? && s.threads[r].pc.o == o ==> 0 < ob.signalled
    ensures WaitSide(WithObject(s, o, ob), a)
  {
    hide FlightsOk, WaitFits;
    assert FlightsOk(WithObject(s, o, ob), a) by { SameThreadsFlights(s, a, o, ob); }
  }

  lemma {:induction false} SameThreadsFlights(s: System, a: Aux, o: Obj, ob: Object)
    requires FlightsOk(s, a)
    ensures FlightsOk(WithObject(s, o, ob), a)
  {
  }

  /** With the object lock free nobody has a wait block of the object in hand. */
  lemma {:induction false} NobodySignals(s: System, o: Obj)
    requires ObjectsOk(s) && o in s.objects && s.objects[o].holder.None?
    ensures forall r :: r in s.threads ==> Signals(s.threads[r].pc) != Some(o)
  {
  }

  lemma {:induction false} ReturnWait(s: System, a: Aux, t: Tid, o: Obj)
    requires WaitSide(s, a) && t in s.threads && o in s.objects && LocOf(a, t) == Nowhere
    requires s.threads[t].pc == Got(o) || s.threads[t].pc == Finish(o)
    ensures WaitSide(Return(s, t, o), a)
  {
    var s1 := WithThread(s, t, Return(s, t, o).threads[t]);
    ReturnObject(s1, s, t, o);
    hide WaitSide;
    FitsNow(s, a, t);
    OwnStepWait(s, a, t, s1.threads[t]);
    InHandPositive(s1, a, o);
    HarmlessWait(s1, a, o, Return(s, t, o).objects[o]);
  }

  lemma {:induction false} ReturnObject(s1: System, s: System, t: Tid, o: Obj)
    requires t in s.threads && o in s.objects && s1 == WithThread(s, t, Return(s, t, o).threads[t]) && ObjectsOk(s)
    ensures Return(s, t, o) == WithObject(s1, o, Return(s, t, o).objects[o])
    ensures Harmless(s.objects[o], Return(s, t, o).objects[o])
  {
  }

  lemma {:induction false} InHandPositive(s: System, a: Aux, o: Obj)
    requires WaitSide(s, a) && o in s.objects
    ensures forall r :: r in s.threads && Flight(s.threads[r].pc).Some? && s.threads[r].pc.o == o ==>
              0 < s.objects[o].signalled
  {
  }

  // ------------------------------------------------------ looking at the object

  lemma {:induction false} TakeWait(s: System, a: Aux, c: Cpu, t: Tid)
    requires WaitSide(s, a) && CanLookAtObject(s, c, t) && 0 < s.objects[s.threads[t].pc.o].signalled
    ensures WaitSide(LookAtObject(s, t), a)
  {
    var s', o := LookAtObject(s, t), s.threads[t].pc.o;
    var s1 := WithThread(s, t, s'.threads[t]);
    NobodySignals(s, o);
    hide WaitSide;
    FitsNow(s, a, t);
    OwnStepWait(s, a, t, s1.threads[t]);
    HarmlessWait(s1, a, o, s'.objects[o]);
  }

  lemma {:induction false} EnqueueQueues(s: System, a: Aux, t: Tid, o: Obj)
    requires QueuesOk(s, a) && t in s.threads && s.threads[t].pc == Prepare(o) && LocOf(a, t) == Nowhere
    requires o in s.objects && s.objects[o].signalled <= 0
    ensures QueuesOk(LookAtObject(s, t), Put(a, t, InQueue(o)))
  {
    WithLast(s.objects[o].queue, t);
    var s', a' := LookAtObject(s, t), Put(a, t, InQueue(o));
    assert forall x :: x != t ==> LocOf(a', x) == LocOf(a, x);
    forall q, x | q in s'.objects ensures x in s'.objects[q].queue <==> LocOf(a', x) == InQueue(q) {
      assert x in s.objects[q].queue <==> LocOf(a, x) == InQueue(q);
    }
  }

  lemma {:induction false} EnqueueFlights(s: System, a: Aux, t: Tid, o: Obj)
    requires FlightsOk(s, a) && t in s.threads && s.threads[t].pc == Prepare(o) && LocOf(a, t) == Nowhere
    requires o in s.objects && s.objects[o].signalled <= 0
    ensures FlightsOk(LookAtObject(s, t), Put(a, t, InQueue(o)))
  {
  }

  lemma {:induction false} EnqueueWaits(s: System, a: Aux, t: Tid, o: Obj)
    requires WaitsOk(s, a) && FlightsOk(s, a) && t in s.threads && s.threads[t].pc == Prepare(o)
    requires o in s.objects && s.objects[o].signalled <= 0
    ensures WaitsOk(LookAtObject(s, t), Put(a, t, InQueue(o)))
  {
  }

  lemma {:induction false} EnqueueObjects(s: System, t: Tid, o: Obj)
    requires ObjectsOk(s) && t in s.threads && s.threads[t].pc == Prepare(o)
    requires o in s.objects && s.objects[o].signalled <= 0
    ensures ObjectsOk(LookAtObject(s, t))
  {
  }

  lemma {:induction false} EnqueueWait(s: System, a: Aux, c: Cpu, t: Tid)
    requires WaitSide(s, a) && CanLookAtObject(s, c, t) && s.objects[s.threads[t].pc.o].signalled <= 0
    ensures WaitSide(LookAtObject(s, t), Put(a, t, InQueue(s.threads[t].pc.o)))
  {
    var o := s.threads[t].pc.o;
    FitsNow(s, a, t);
    hide QueuesOk, FlightsOk, WaitsOk, ObjectsOk, LookAtObject;
    EnqueueQueues(s, a, t, o);
    EnqueueFlights(s, a, t, o);
    EnqueueWaits(s, a, t, o);
    EnqueueObjects(s, t, o);
  }

  // ------------------------------------------------------------------ releasing

  /** A thread outside takes a free object's lock and raises its count. */
  lemma {:induction false} OpenWait(s: System, a: Aux, t: Tid, o: Obj, th: Thread, ob: Object)
    requires WaitSide(s, a) && t in s.threads && s.threads[t].pc.Outside? && th.pc == Signal(o, [])
    requires o in s.objects && s.objects[o].holder.None? && ob.holder == Some(t) && ob.queue == s.objects[o].queue
    requires s.objects[o].signalled <= ob.signalled
    ensures WaitSide(WithObject(WithThread(s, t, th), o, ob), a)
  {
    hide FlightsOk, WaitsOk, WaitFits, ObjectsOk;
    OpenFlights(s, a, t, o, th, ob);
    OpenObjects(s, t, o, th, ob);
    OpenWaits(s, a, t, o, th, ob);
  }

  lemma {:induction false} OpenFlights(s: System, a: Aux, t: Tid, o: Obj, th: Thread, ob: Object)
    requires FlightsOk(s, a) && t in s.threads && s.threads[t].pc.Outside? && th.pc == Signal(o, [])
    ensures FlightsOk(WithObject(WithThread(s, t, th), o, ob), a)
  {
  }

  lemma {:induction false} OpenWaits(s: System, a: Aux, t: Tid, o: Obj, th: Thread, ob: Object)
    requires WaitsOk(s, a) && FlightsOk(s, a) && t in s.threads && s.threads[t].pc.Outside? && th.pc == Signal(o, [])
    ensures WaitsOk(WithObject(WithThread(s, t, th), o, ob), a)
  {
    hide WaitFits;
    assert forall x :: LocOf(a, x) != InFlight(t);
    FitsOutside(s, a, t, th);
  }

  lemma {:induction false} FitsOutside(s: System, a: Aux, t: Tid, th: Thread)
    requires WaitsOk(s, a) && t in s.threads && s.threads[t].pc.Outside? && WaitsOn(th.pc).None? && !th.pc.Prepare?
    ensures WaitFits(th, LocOf(a, t), Outside) && LocOf(a, t) == Nowhere
  {
  }

  lemma {:induction false} OpenObjects(s: System, t: Tid, o: Obj, th: Thread, ob: Object)
    requires ObjectsOk(s) && t in s.threads && s.threads[t].pc.Outside? && th.pc == Signal(o, [])
    requires o in s.objects && s.objects[o].holder.None? && ob.holder == Some(t)
    requires s.objects[o].signalled <= ob.signalled
    ensures ObjectsOk(WithObject(WithThread(s, t, th), o, ob))
  {
  }

  lemma {:induction false} ReleaseWait(s: System, a: Aux, c: Cpu, t: Tid, o: Obj, amount: Amount)
    requires WaitSide(s, a) && CanRelease(s, c, t, o)
    ensures WaitSide(Release(s, t, o, amount), a)
  {
    var s' := Release(s, t, o, amount);
    hide WaitSide;
    OpenWait(s, a, t, o, s'.threads[t], s'.objects[o]);
  }

  lemma {:induction false} ReleaseMutexWait(s: System, a: Aux, c: Cpu, t: Tid, o: Obj)
    requires WaitSide(s, a) && CanReleaseMutex(s, c, t, o)
    ensures WaitSide(ReleaseMutex(s, t, o), a)
  {
    var s' := ReleaseMutex(s, t, o);
    hide WaitSide;
    OpenWait(s, a, t, o, s'.threads[t], s'.objects[o]);
  }

  /** Whose list thread `h`'s wait block is on, if a releasing thread's. */
  function HandOf(l: Loc): Option<Tid> {
    if l.InFlight? || l.InWake? then Some(l.r) else None
  }

  /** Thread `t` takes `h`'s wait block in hand, moves it to its wake list or is done
      with it; nobody else's lists change. */
  lemma {:induction false} HandFlights(s: System, a: Aux, s': System, a': Aux, t: Tid, h: Tid)
    requires FlightsOk(s, a) && t in s.threads && h in s.threads && s'.threads.Keys == s.threads.Keys
    requires forall r :: r in s.threads && r != t ==> SameHand(s.threads[r], s'.threads[r])
    requires forall x :: x != h ==> LocOf(a', x) == LocOf(a, x)
    requires HandOf(LocOf(a, h)) in {None, Some(t)} && HandOf(LocOf(a', h)) in {None, Some(t)}
    requires Flight(s'.threads[t].pc) == Some(h) <==> LocOf(a', h) == InFlight(t)
    requires h in WakeList(s'.threads[t].pc) <==> LocOf(a', h) == InWake(t)
    requires Flight(s'.threads[t].pc) in {None, Some(h)} && Flight(s.threads[t].pc) in {None, Some(h)}
    requires forall x :: x != h ==> (x in WakeList(s'.threads[t].pc) <==> x in WakeList(s.threads[t].pc))
    requires Distinct(WakeList(s'.threads[t].pc))
    ensures FlightsOk(s', a')
  {
    forall r, x | r in s'.threads
      ensures Flight(s'.threads[r].pc) == Some(x) <==> LocOf(a', x) == InFlight(r)
      ensures x in WakeList(s'.threads[r].pc) <==> LocOf(a', x) == InWake(r)
    {
      assert Flight(s.threads[r].pc) == Some(x) <==> LocOf(a, x) == InFlight(r);
      assert x in WakeList(s.threads[r].pc) <==> LocOf(a, x) == InWake(r);
    }
  }

  // ------------------------------------------------------------------ signalling

  /** The loop of `ki_signal` goes round: a waiter is queued and a token is left. */
  predicate Hands(s: System, t: Tid) {
    && t in s.threads && s.threads[t].pc.Signal? && s.threads[t].pc.o in s.objects
    && s.objects[s.threads[t].pc.o].queue != [] && 0 < s.objects[s.threads[t].pc.o].signalled
  }

  function DequeueAux(s: System, a: Aux, t: Tid): Aux
    requires Hands(s, t)
  {
    Put(a, s.objects[s.threads[t].pc.o].queue[0], InFlight(t))
  }

  lemma {:induction false} DequeueQueues(s: System, a: Aux, t: Tid)
    requires QueuesOk(s, a) && Hands(s, t)
    ensures QueuesOk(SignalNext(s, t), DequeueAux(s, a, t))
  {
    TailOf(s.objects[s.threads[t].pc.o].queue);
    var s', a' := SignalNext(s, t), DequeueAux(s, a, t);
    assert forall x :: x != s.objects[s.threads[t].pc.o].queue[0] ==> LocOf(a', x) == LocOf(a, x);
    forall q, x | q in s'.objects ensures x in s'.objects[q].queue <==> LocOf(a', x) == InQueue(q) {
      assert x in s.objects[q].queue <==> LocOf(a, x) == InQueue(q);
    }
  }

  lemma {:induction false} DequeueFlights(s: System, a: Aux, t: Tid)
    requires FlightsOk(s, a) && Hands(s, t) && LocOf(a, s.objects[s.threads[t].pc.o].queue[0]).InQueue?
    ensures FlightsOk(SignalNext(s, t), DequeueAux(s, a, t))
  {
    var h := s.objects[s.threads[t].pc.o].queue[0];
    HandLists(s, a, t, h);
    hide FlightsOk;
    HandFlights(s, a, SignalNext(s, t), DequeueAux(s, a, t), t, h);
  }

  lemma {:induction false} HandLists(s: System, a: Aux, t: Tid, h: Tid)
    requires FlightsOk(s, a) && t in s.threads
    ensures Distinct(WakeList(s.threads[t].pc)) && (h in WakeList(s.threads[t].pc) <==> LocOf(a, h) == InWake(t))
    ensures h !in s.threads ==> LocOf(a, h) == Nowhere
    ensures Flight(s.threads[t].pc) == Some(h) <==> LocOf(a, h) == InFlight(t)
  {
  }

  lemma {:induction false} DequeueWaits(s: System, a: Aux, t: Tid)
    requires WaitsOk(s, a) && FlightsOk(s, a) && Hands(s, t)
    requires LocOf(a, s.objects[s.threads[t].pc.o].queue[0]) == InQueue(s.threads[t].pc.o)
    ensures WaitsOk(SignalNext(s, t), DequeueAux(s, a, t))
  {
    assert forall x :: LocOf(a, x) != InFlight(t);
  }

  lemma {:induction false} DequeueObjects(s: System, t: Tid)
    requires ObjectsOk(s) && Hands(s, t)
    ensures ObjectsOk(SignalNext(s, t))
  {
  }

  lemma {:induction false} DequeueWait(s: System, a: Aux, t: Tid)
    requires WaitSide(s, a) && Hands(s, t)
    ensures WaitSide(SignalNext(s, t), DequeueAux(s, a, t))
  {
    assert s.objects[s.threads[t].pc.o].queue[0] in s.objects[s.threads[t].pc.o].queue;
    hide FlightsOk, WaitsOk, ObjectsOk, SignalNext, DequeueAux;
    DequeueQueues(s, a, t);
    DequeueFlights(s, a, t);
    DequeueWaits(s, a, t);
    DequeueObjects(s, t);
  }

  lemma {:induction false} UnlockObjects(s: System, t: Tid)
    requires ObjectsOk(s) && t in s.threads && s.threads[t].pc.Signal? && s.threads[t].pc.o in s.objects && !Hands(s, t)
    ensures ObjectsOk(SignalNext(s, t))
  {
  }

  lemma {:induction false} UnlockLists(s: System, a: Aux, t: Tid)
    requires QueuesOk(s, a) && FlightsOk(s, a) && t in s.threads && s.threads[t].pc.Signal?
    requires s.threads[t].pc.o in s.objects
    requires !Hands(s, t)
    ensures QueuesOk(SignalNext(s, t), a) && FlightsOk(SignalNext(s, t), a)
  {
  }

  lemma {:induction false} UnlockWaits(s: System, a: Aux, t: Tid)
    requires WaitsOk(s, a) && FlightsOk(s, a) && t in s.threads && s.threads[t].pc.Signal?
    requires s.threads[t].pc.o in s.objects
    requires !Hands(s, t)
    ensures WaitsOk(SignalNext(s, t), a)
  {
    assert forall x :: LocOf(a, x) != InFlight(t);
  }

  lemma {:induction false} UnlockWait(s: System, a: Aux, t: Tid)
    requires WaitSide(s, a) && t in s.threads && s.threads[t].pc.Signal? && s.threads[t].pc.o in s.objects
    requires !Hands(s, t)
    ensures WaitSide(SignalNext(s, t), a)
  {
    hide QueuesOk, FlightsOk, WaitsOk, ObjectsOk, SignalNext, Hands;
    UnlockObjects(s, t);
    UnlockLists(s, a, t);
    UnlockWaits(s, a, t);
  }

  // -------------------------------------------------- satisfying a wait in hand

  /** A wait block in hand belongs to another thread, and one that waits on this
      object; after the first compare-and-swap has failed the second succeeds. */
  lemma {:induction false} InHand(s: System, a: Aux, t: Tid)
    requires WaitSide(s, a) && t in s.threads && Flight(s.threads[t].pc).Some?
    ensures var pc := s.threads[t].pc;
            && pc.t in s.threads && pc.t != t && LocOf(a, pc.t) == InFlight(t) && !pc.Recheck?
            && WaitFits(s.threads[pc.t], InFlight(t), pc) && WaitsOn(s.threads[pc.t].pc) == Some(pc.o)
            && Flight(s.threads[pc.t].pc).None? && pc.o in s.objects && 0 < s.objects[pc.o].signalled
            && LocOf(a, t) == Nowhere && WaitsOn(s.threads[t].pc).None?
  {
    assert LocOf(a, s.threads[t].pc.t) == InFlight(t);
  }

  /** Two threads change: the releasing one, still with the same wait block in hand,
      and the one whose block it is. */
  lemma {:induction false} TryLists(s: System, a: Aux, t: Tid, th: Thread, h: Tid, target: Thread)
    requires QueuesOk(s, a) && FlightsOk(s, a) && t in s.threads && h in s.threads && t != h
    requires SameHand(s.threads[t], th) && SameHand(s.threads[h], target)
    ensures var s' := WithThread(WithThread(s, h, target), t, th);
            QueuesOk(s', a) && FlightsOk(s', a)
  {
  }

  lemma {:induction false} TryWaits(s: System, a: Aux, t: Tid, th: Thread, h: Tid, target: Thread)
    requires WaitsOk(s, a) && FlightsOk(s, a) && t in s.threads && h in s.threads && t != h
    requires SameHand(s.threads[t], th) && SameHand(s.threads[h], target) && Flight(s.threads[h].pc).None?
    requires Flight(th.pc) == Some(h) && LocOf(a, t) == Nowhere && WaitsOn(th.pc).None? && !th.pc.Prepare?
    requires WaitFits(target, InFlight(t), th.pc) && LocOf(a, h) == InFlight(t)
    ensures WaitsOk(WithThread(WithThread(s, h, target), t, th), a)
  {
    hide SameHand;
    var s' := WithThread(WithThread(s, h, target), t, th);
    assert forall x :: LocOf(a, x) != InFlight(h);
    assert WaitFits(th, LocOf(a, t), Outside);
    hide WaitFits;
    forall x | x in s.threads && x != t && x != h
      ensures WaitFits(s'.threads[x], LocOf(a, x), HandPc(s', LocOf(a, x)))
    {
      assert HandPc(s', LocOf(a, x)) == HandPc(s, LocOf(a, x));
    }
  }

  lemma {:induction false} TryObjects(s: System, t: Tid, th: Thread, h: Tid, target: Thread)
    requires ObjectsOk(s) && t in s.threads && h in s.threads && t != h
    requires SameHand(s.threads[t], th) && SameHand(s.threads[h], target)
    requires Flight(th.pc).Some? && WaitsOn(target.pc).Some? && target.pc == s.threads[h].pc
    ensures ObjectsOk(WithThread(WithThread(s, h, target), t, th))
  {
  }

  lemma {:induction false} TryWait(s: System, a: Aux, c: Cpu, t: Tid)
    requires WaitSide(s, a) && CanTry(s, c, t)
    ensures WaitSide(Try(s, t), a)
  {
    hide QueuesOk, FlightsOk, WaitsOk, ObjectsOk;
    var s' := Try(s, t);
    var h := s.threads[t].pc.t;
    InHand(s, a, t);
    assert s' == WithThread(WithThread(s, h, s'.threads[h]), t, s'.threads[t]) by {
      assert s.threads == s.threads[h := s.threads[h]];
    }
    TryLists(s, a, t, s'.threads[t], h, s'.threads[h]);
    TryWaits(s, a, t, s'.threads[t], h, s'.threads[h]);
    TryObjects(s, t, s'.threads[t], h, s'.threads[h]);
  }

  function AcquireAux(s: System, a: Aux, t: Tid): Aux
    requires t in s.threads && s.threads[t].pc.Acquire?
  {
    Put(a, s.threads[t].pc.t, if s.threads[t].pc.mid then InWake(t) else Nowhere)
  }

  lemma {:induction false} AcquireQueues(s: System, a: Aux, t: Tid)
    requires QueuesOk(s, a) && t in s.threads && s.threads[t].pc.Acquire? && s.threads[t].pc.t in s.threads
    requires s.threads[t].pc.o in s.objects && LocOf(a, s.threads[t].pc.t) == InFlight(t)
    ensures QueuesOk(AcquireFor(s, t), AcquireAux(s, a, t))
  {
    var s', a' := AcquireFor(s, t), AcquireAux(s, a, t);
    assert forall x :: x != s.threads[t].pc.t ==> LocOf(a', x) == LocOf(a, x);
    forall q, x | q in s'.objects ensures x in s'.objects[q].queue <==> LocOf(a', x) == InQueue(q) {
      assert x in s.objects[q].queue <==> LocOf(a, x) == InQueue(q);
    }
  }

  lemma {:induction false} AcquireFlights(s: System, a: Aux, t: Tid)
    requires FlightsOk(s, a) && t in s.threads && s.threads[t].pc.Acquire? && s.threads[t].pc.t in s.threads
    requires s.threads[t].pc.o in s.objects && s.threads[t].pc.t != t
    ensures FlightsOk(AcquireFor(s, t), AcquireAux(s, a, t))
  {
    var h := s.threads[t].pc.t;
    HandLists(s, a, t, h);
    WithLast(s.threads[t].pc.wake, h);
    hide FlightsOk;
    HandFlights(s, a, AcquireFor(s, t), AcquireAux(s, a, t), t, h);
  }

  lemma {:induction false} AcquireWaits(s: System, a: Aux, t: Tid)
    requires WaitsOk(s, a) && FlightsOk(s, a) && t in s.threads && s.threads[t].pc.Acquire?
    requires s.threads[t].pc.t in s.threads
    requires s.threads[t].pc.o in s.objects && s.threads[t].pc.t != t && Flight(s.threads[s.threads[t].pc.t].pc).None?
    requires LocOf(a, t) == Nowhere && WaitFits(s.threads[s.threads[t].pc.t], InFlight(t), s.threads[t].pc)
    ensures WaitsOk(AcquireFor(s, t), AcquireAux(s, a, t))
  {
    var Acquire(o, wake, h, mid) := s.threads[t].pc;
    var s', a' := AcquireFor(s, t), AcquireAux(s, a, t);
    assert LocOf(a, h) == InFlight(t);
    assert forall x :: LocOf(a, x) != InFlight(h);
    assert forall x :: LocOf(a, x) == InFlight(t) ==> x == h;
    assert WaitFits(s'.threads[t], LocOf(a', t), Outside);
    assert WaitFits(s'.threads[h], LocOf(a', h), Outside);
    hide WaitFits;
    forall x | x in s.threads && x != t && x != h
      ensures WaitFits(s'.threads[x], LocOf(a', x), HandPc(s', LocOf(a', x)))
    {
      assert HandPc(s', LocOf(a, x)) == HandPc(s, LocOf(a, x));
    }
  }

  lemma {:induction false} AcquireObjects(s: System, t: Tid)
    requires ObjectsOk(s) && t in s.threads && s.threads[t].pc.Acquire? && s.threads[t].pc.t in s.threads
    requires s.threads[t].pc.o in s.objects && s.threads[t].pc.t != t
    ensures ObjectsOk(AcquireFor(s, t))
  {
  }

  lemma {:induction false} AcquireWait(s: System, a: Aux, c: Cpu, t: Tid)
    requires WaitSide(s, a) && CanAcquire(s, c, t)
    ensures WaitSide(AcquireFor(s, t), AcquireAux(s, a, t))
  {
    hide QueuesOk, FlightsOk, WaitsOk, ObjectsOk, AcquireFor, AcquireAux;
    InHand(s, a, t);
    AcquireQueues(s, a, t);
    AcquireFlights(s, a, t);
    AcquireWaits(s, a, t);
    AcquireObjects(s, t);
  }

  // ----------------------------------------------------------- waking, switching

  lemma {:induction false} SameLists(s: System, a: Aux, s': System, a': Aux)
    requires QueuesOk(s, a) && FlightsOk(s, a) && s'.threads == s.threads && s'.objects == s.objects && a'.loc == a.loc
    ensures QueuesOk(s', a') && FlightsOk(s', a')
  {
    assert forall t :: LocOf(a', t) == LocOf(a, t);
  }

  lemma {:induction false} SameWaits(s: System, a: Aux, s': System, a': Aux)
    requires WaitsOk(s, a) && s'.threads == s.threads && a'.loc == a.loc
    ensures WaitsOk(s', a')
  {
    assert forall t :: LocOf(a', t) == LocOf(a, t);
    assert forall l: Loc :: HandPc(s', l) == HandPc(s, l);
    hide WaitFits;
  }

  lemma {:induction false} SameObjects(s: System, s': System)
    requires ObjectsOk(s) && s'.threads == s.threads && s'.objects == s.objects
    ensures ObjectsOk(s')
  {
  }

  /** The wait side does not depend on processors or on places. */
  lemma {:induction false} SameWaitSide(s: System, a: Aux, s': System, a': Aux)
    requires WaitSide(s, a) && s'.threads == s.threads && s'.objects == s.objects && a'.loc == a.loc
    ensures WaitSide(s', a')
  {
    hide QueuesOk, FlightsOk, WaitsOk, ObjectsOk;
    SameLists(s, a, s', a');
    SameWaits(s, a, s', a');
    SameObjects(s, s');
  }

  /** The next waiter on a wake list, whose lock is free, is asleep and satisfied. */
  predicate Wakes(s: System, t: Tid) {
    && t in s.threads && s.threads[t].pc.WakeUp? && s.threads[t].pc.wake != []
    && s.threads[t].pc.wake[0] in s.threads && s.threads[s.threads[t].pc.wake[0]].pc.Finish?
  }

  function WokenThreads(s: System, t: Tid): System
    requires Wakes(s, t)
  {
    var wake := s.threads[t].pc.wake;
    WithThread(WithThread(s, wake[0], s.threads[wake[0]].(state := Runnable)), t,
               s.threads[t].(pc := WakeUp(wake[1..])))
  }

  lemma {:induction false} WakeFlights(s: System, a: Aux, t: Tid)
    requires FlightsOk(s, a) && Wakes(s, t)
    ensures FlightsOk(WokenThreads(s, t), Put(a, s.threads[t].pc.wake[0], Nowhere))
  {
    var wake := s.threads[t].pc.wake;
    HandLists(s, a, t, wake[0]);
    TailOf(wake);
    hide FlightsOk;
    HandFlights(s, a, WokenThreads(s, t), Put(a, wake[0], Nowhere), t, wake[0]);
  }

  lemma {:induction false} WakeQueues(s: System, a: Aux, t: Tid)
    requires QueuesOk(s, a) && Wakes(s, t) && LocOf(a, s.threads[t].pc.wake[0]) == InWake(t)
    ensures QueuesOk(WokenThreads(s, t), Put(a, s.threads[t].pc.wake[0], Nowhere))
  {
    var s', a' := WokenThreads(s, t), Put(a, s.threads[t].pc.wake[0], Nowhere);
    assert forall x :: x != s.threads[t].pc.wake[0] ==> LocOf(a', x) == LocOf(a, x);
    forall q, x | q in s'.objects ensures x in s'.objects[q].queue <==> LocOf(a', x) == InQueue(q) {
      assert x in s.objects[q].queue <==> LocOf(a, x) == InQueue(q);
    }
  }

  lemma {:induction false} WakeWaits(s: System, a: Aux, t: Tid)
    requires WaitsOk(s, a) && FlightsOk(s, a) && Wakes(s, t) && LocOf(a, s.threads[t].pc.wake[0]) == InWake(t)
    ensures WaitsOk(WokenThreads(s, t), Put(a, s.threads[t].pc.wake[0], Nowhere))
  {
    var h := s.threads[t].pc.wake[0];
    var s', a' := WokenThreads(s, t), Put(a, h, Nowhere);
    assert forall x :: LocOf(a, x) != InFlight(h) && LocOf(a, x) != InFlight(t);
    assert WaitFits(s'.threads[t], LocOf(a', t), Outside);
    assert WaitFits(s'.threads[h], Nowhere, Outside);
    hide WaitFits;
    forall x | x in s.threads && x != t && x != h
      ensures WaitFits(s'.threads[x], LocOf(a', x), HandPc(s', LocOf(a', x)))
    {
      assert HandPc(s', LocOf(a, x)) == HandPc(s, LocOf(a, x));
    }
  }

  lemma {:induction false} WakeObjects(s: System, t: Tid)
    requires ObjectsOk(s) && Wakes(s, t)
    ensures ObjectsOk(WokenThreads(s, t))
  {
  }

  lemma {:induction false} OnWakeList(s: System, a: Aux, t: Tid)
    requires FlightsOk(s, a) && t in s.threads && s.threads[t].pc.WakeUp? && s.threads[t].pc.wake != []
    ensures LocOf(a, s.threads[t].pc.wake[0]) == InWake(t) && s.threads[t].pc.wake[0] in s.threads
  {
    assert s.threads[t].pc.wake[0] in WakeList(s.threads[t].pc);
  }

  lemma {:induction false} WakeWait(s: System, a: Aux, t: Tid, d: Cpu)
    requires WaitSide(s, a) && Wakes(s, t) && d in s.cpus
    ensures WaitSide(Wake(s, t, d), Move(Put(a, s.threads[t].pc.wake[0], Nowhere), s.threads[t].pc.wake[0], OnRunq(d)))
  {
    var h := s.threads[t].pc.wake[0];
    var a' := Put(a, h, Nowhere);
    hide QueuesOk, FlightsOk, WaitsOk, ObjectsOk;
    OnWakeList(s, a, t);
    WakeFlights(s, a, t);
    WakeQueues(s, a, t);
    WakeWaits(s, a, t);
    WakeObjects(s, t);
    SameWaitSide(WokenThreads(s, t), a', Wake(s, t, d), Move(a', h, OnRunq(d)));
  }

  lemma {:induction false} WakeDoneWait(s: System, a: Aux, t: Tid, d: Cpu)
    requires WaitSide(s, a) && t in s.threads && s.threads[t].pc == WakeUp([]) && d in s.cpus
    ensures WaitSide(Wake(s, t, d), a)
  {
    hide WaitSide;
    FitsNow(s, a, t);
    OwnStepWait(s, a, t, s.threads[t].(pc := Outside));
  }

  lemma {:induction false} StartWait(s: System, a: Aux, h: Tid, d: Cpu)
    requires WaitSide(s, a) && h in s.threads && s.threads[h].pc.Unstarted? && d in s.cpus
    ensures WaitSide(Start(s, h, d), Move(a, h, OnRunq(d)))
  {
    hide WaitSide;
    FitsNow(s, a, h);
    var th := s.threads[h].(pc := Outside);
    OwnStepWait(s, a, h, th);
    SameWaitSide(WithThread(s, h, th), a, Start(s, h, d), Move(a, h, OnRunq(d)));
  }

  lemma {:induction false} SwitchDoneWait(s: System, a: Aux, c: Cpu)
    requires WaitSide(s, a) && CanSwitchDone(s, c)
    requires Flight(s.threads[s.cpus[c].prev].pc).None?
    ensures WaitSide(SwitchDone(s, c), a)
  {
    hide WaitSide;
    var t := s.cpus[c].prev;
    FitsNow(s, a, t);
    var th := s.threads[t].(lock := Free);
    OwnStepWait(s, a, t, th);
    SameWaitSide(WithThread(s, t, th), a, SwitchDone(s, c), a);
  }

  /** The thread `ki_reschedule` picks. */
  function Picked(s: System, c: Cpu, t: Tid): Tid
    requires c in s.cpus && t in s.threads
  {
    var p := s.cpus[c];
    var runq := if SwitchedOut(p, t, s.threads[t]).1 then p.runq + [t] else p.runq;
    if runq == [] then p.idle else runq[0]
  }

  function RescheduleAux(s: System, a: Aux, c: Cpu, t: Tid): Aux
    requires c in s.cpus && t in s.threads
  {
    Move(Move(a, t, if SwitchedOut(s.cpus[c], t, s.threads[t]).1 then OnRunq(c) else OffCpu), Picked(s, c, t), OnCpu(c))
  }

  /** The thread picked is the old one, or one outside or back from a wait. */
  predicate Pickable(th: Thread) {
    (th.pc.Outside? || th.pc.Finish?) && !th.state.Waiting?
  }

  lemma {:induction false} RescheduleWait(s: System, a: Aux, c: Cpu, t: Tid)
    requires WaitSide(s, a) && CanReschedule(s, c, t) && Picked(s, c, t) in s.threads
    requires s.threads[t].pc.Sleeping? ==> s.threads[t].state.Waiting? && t != s.cpus[c].idle
    requires t !in s.cpus[c].runq && (Picked(s, c, t) != t ==> Pickable(s.threads[Picked(s, c, t)]))
    ensures WaitSide(Reschedule(s, c, t), RescheduleAux(s, a, c, t))
  {
    hide WaitSide;
    var n := Picked(s, c, t);
    var th := SwitchedOut(s.cpus[c], t, s.threads[t]).0;
    FitsNow(s, a, t);
    OwnStepWait(s, a, t, th);
    var s1 := WithThread(s, t, th);
    FitsNow(s1, a, n);
    var nth := s1.threads[n].(state := Running);
    assert Reschedule(s, c, t).threads == s1.threads[n := nth];
    OwnStepWait(s1, a, n, nth);
    SameWaitSide(WithThread(s1, n, nth), a, Reschedule(s, c, t), RescheduleAux(s, a, c, t));
  }

  // -------------------------------------------------------- each step, run side

  /** Positions at which a thread runs without holding its own lock. */
  predicate Plain(pc: Pc) {
    !HoldsOwn(pc) && !pc.Unstarted? && !pc.Gone?
  }

  /** Only `t`'s position and what waiting changes in threads is different. */
  ghost predicate SameRun(s: System, s': System, t: Tid) {
    && s'.cpus == s.cpus && s'.threads.Keys == s.threads.Keys
    && (forall x :: x in s.threads ==>
          && s'.threads[x].idleOf == s.threads[x].idleOf && s'.threads[x].state == s.threads[x].state
          && s'.threads[x].lock == s.threads[x].lock && (x != t ==> s'.threads[x].pc == s.threads[x].pc))
  }

  /** An idle thread never waits. */
  predicate IdleCan(th: Thread) {
    th.idleOf.Some? ==> WaitsOn(th.pc).None? && !th.pc.Prepare? && !th.pc.Got?
  }

  lemma {:induction false} OnItsCpu(s: System, a: Aux, c: Cpu, t: Tid)
    requires ListsOk(s, a) && StatesOk(s, a) && Executes(s, c, t)
    ensures PlaceOf(a, t) == OnCpu(c) && StateFits(s.threads[t], OnCpu(c)) && t !in s.cpus[c].runq
    ensures s.threads[t].idleOf.None? ==> t != s.cpus[c].idle
  {
  }

  /** What the lock of an executing thread says: free, or taken by its processor. */
  predicate LockFits(th: Thread, c: Cpu) {
    if HoldsOwn(th.pc) then th.lock == HeldBy(c) else th.lock.Free?
  }

  lemma {:induction false} ExecutingLock(s: System, a: Aux, c: Cpu, t: Tid)
    requires ListsOk(s, a) && LocksOk(s, a) && Executes(s, c, t)
    ensures LockFits(s.threads[t], c)
  {
  }

  lemma {:induction false} OwnLocks(s: System, a: Aux, c: Cpu, t: Tid, th: Thread)
    requires ListsOk(s, a) && LocksOk(s, a) && Executes(s, c, t) && LockFits(s.threads[t], c) && LockFits(th, c)
    requires th.idleOf.Some? ==> th.idleOf.value == c
    ensures LocksOk(WithThread(s, t, th), a)
  {
  }

  lemma {:induction false} OwnStates(s: System, a: Aux, c: Cpu, t: Tid, th: Thread)
    requires ListsOk(s, a) && StatesOk(s, a) && Executes(s, c, t) && th.idleOf == s.threads[t].idleOf
    requires StateFits(th, OnCpu(c))
    ensures StatesOk(WithThread(s, t, th), a)
  {
  }

  /** An executing thread changes its own state, lock or position. */
  lemma {:induction false} OwnRun(s: System, a: Aux, c: Cpu, t: Tid, th: Thread)
    requires RunSide(s, a) && Executes(s, c, t) && th.idleOf == s.threads[t].idleOf
    requires StateFits(th, OnCpu(c)) && LockFits(th, c)
    ensures RunSide(WithThread(s, t, th), a)
  {
    OwnLists(s, a, t, th);
    hide ListsOk, StatesOk, LocksOk;
    ExecutingLock(s, a, c, t);
    OwnLocks(s, a, c, t, th);
    OwnStates(s, a, c, t, th);
  }

  lemma {:induction false} OwnLists(s: System, a: Aux, t: Tid, th: Thread)
    requires ListsOk(s, a) && t in s.threads
    ensures ListsOk(WithThread(s, t, th), a)
  {
  }

  /** The run side does not depend on objects, wait statuses or wait blocks. */
  ghost predicate SameForRun(s: System, s': System) {
    && s'.cpus == s.cpus && s'.threads.Keys == s.threads.Keys
    && (forall x :: x in s.threads ==>
          && s'.threads[x].idleOf == s.threads[x].idleOf && s'.threads[x].state == s.threads[x].state
          && s'.threads[x].lock == s.threads[x].lock && s'.threads[x].pc == s.threads[x].pc)
  }

  lemma {:induction false} SameForStates(s: System, s': System, a: Aux)
    requires ListsOk(s, a) && StatesOk(s, a) && SameForRun(s, s')
    ensures ListsOk(s', a) && StatesOk(s', a)
  {
  }

  lemma {:induction false} SameForLocks(s: System, s': System, a: Aux)
    requires LocksOk(s, a) && SameForRun(s, s')
    ensures LocksOk(s', a)
  {
  }

  /** A thread moves between positions outside its own lock. */
  lemma {:induction false} PlainRun(s: System, s': System, a: Aux, c: Cpu, t: Tid)
    requires RunSide(s, a) && Executes(s, c, t) && SameRun(s, s', t)
    requires Plain(s.threads[t].pc) && Plain(s'.threads[t].pc) && IdleCan(s'.threads[t])
    ensures RunSide(s', a)
  {
    hide ListsOk, StatesOk, LocksOk;
    OnItsCpu(s, a, c, t);
    ExecutingLock(s, a, c, t);
    var th := s.threads[t].(pc := s'.threads[t].pc);
    OwnRun(s, a, c, t, th);
    SameForStates(WithThread(s, t, th), s', a);
    SameForLocks(WithThread(s, t, th), s', a);
  }

  lemma {:induction false} LockSelfRun(s: System, a: Aux, c: Cpu, t: Tid)
    requires RunSide(s, a) && CanLockSelf(s, c, t)
    ensures RunSide(LockSelf(s, c, t), a)
  {
    OnItsCpu(s, a, c, t);
    hide RunSide;
    OwnRun(s, a, c, t, LockSelf(s, c, t).threads[t]);
  }

  lemma {:induction false} CommitRun(s: System, a: Aux, c: Cpu, t: Tid)
    requires RunSide(s, a) && CanCommit(s, c, t)
    ensures RunSide(Commit(s, t), a)
  {
    OnItsCpu(s, a, c, t);
    ExecutingLock(s, a, c, t);
    hide RunSide;
    OwnRun(s, a, c, t, Commit(s, t).threads[t]);
  }

  lemma {:induction false} SleepRun(s: System, a: Aux, c: Cpu, t: Tid)
    requires RunSide(s, a) && CanSleep(s, c, t)
    ensures RunSide(Sleep(s, t), a)
  {
    OnItsCpu(s, a, c, t);
    ExecutingLock(s, a, c, t);
    hide RunSide;
    OwnRun(s, a, c, t, Sleep(s, t).threads[t]);
  }

  lemma {:induction false} PreemptRun(s: System, a: Aux, c: Cpu, t: Tid)
    requires RunSide(s, a) && CanPreempt(s, c, t)
    ensures RunSide(BeginPreempt(s, c, t), a) && (CanExit(s, c, t) ==> RunSide(BeginExit(s, c, t), a))
  {
    OnItsCpu(s, a, c, t);
    hide RunSide;
    OwnRun(s, a, c, t, BeginPreempt(s, c, t).threads[t]);
    if CanExit(s, c, t) {
      OwnRun(s, a, c, t, BeginExit(s, c, t).threads[t]);
    }
  }

  // -------------------------------------------------------- joining a run queue

  /** A thread that is on no list and holds no lock becomes runnable. */
  predicate Joins(s: System, h: Tid, th: Thread, d: Cpu) {
    && h in s.threads && s.threads[h].lock.Free? && d in s.cpus && th.lock.Free? && th.idleOf.None?
    && s.threads[h].idleOf.None? && StateFits(th, OnRunq(d))
  }

  function Joined(s: System, h: Tid, th: Thread, d: Cpu): System
    requires d in s.cpus
  {
    OnQueue(WithThread(s, h, th), d, h)
  }

  lemma {:induction false} JoinLists(s: System, a: Aux, h: Tid, th: Thread, d: Cpu)
    requires ListsOk(s, a) && Joins(s, h, th, d) && PlaceOf(a, h).OffCpu?
    ensures ListsOk(Joined(s, h, th, d), Move(a, h, OnRunq(d)))
  {
    WithFirst(h, s.cpus[d].runq);
    var s', a' := Joined(s, h, th, d), Move(a, h, OnRunq(d));
    forall c, t | c in s'.cpus
      ensures t in s'.cpus[c].runq <==> PlaceOf(a', t) == OnRunq(c)
      ensures s'.cpus[c].cur == t <==> PlaceOf(a', t) == OnCpu(c)
    {
      assert t in s.cpus[c].runq <==> PlaceOf(a, t) == OnRunq(c);
      assert s.cpus[c].cur == t <==> PlaceOf(a, t) == OnCpu(c);
    }
  }

  lemma {:induction false} JoinStates(s: System, a: Aux, h: Tid, th: Thread, d: Cpu)
    requires StatesOk(s, a) && Joins(s, h, th, d)
    ensures StatesOk(Joined(s, h, th, d), Move(a, h, OnRunq(d)))
  {
  }

  lemma {:induction false} JoinLocks(s: System, a: Aux, h: Tid, th: Thread, d: Cpu)
    requires ListsOk(s, a) && LocksOk(s, a) && Joins(s, h, th, d) && PlaceOf(a, h).OffCpu?
    ensures LocksOk(Joined(s, h, th, d), Move(a, h, OnRunq(d)))
  {
  }

  lemma {:induction false} JoinRun(s: System, a: Aux, h: Tid, th: Thread, d: Cpu)
    requires RunSide(s, a) && Joins(s, h, th, d) && PlaceOf(a, h).OffCpu?
    ensures RunSide(Joined(s, h, th, d), Move(a, h, OnRunq(d)))
  {
    hide ListsOk, StatesOk, LocksOk, Joins, Joined;
    JoinLists(s, a, h, th, d);
    JoinStates(s, a, h, th, d);
    JoinLocks(s, a, h, th, d);
  }
}
