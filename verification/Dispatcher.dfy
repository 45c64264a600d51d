/**
  Waiting, signalling and scheduling on any number of processors: threads wait for
  one semaphore or mutex without a timeout, releases hand tokens to queued waiters,
  and a thread's own lock is held across its switch-out. Sections under an object
  lock, a thread lock taken by a waker, or a scheduler lock are single steps; each
  compare-and-swap on a wait status is a step of its own.
 */
module Dispatcher {
  import opened Options

  type Tid = int
  type Cpu = int
  type Obj = int

  datatype RunState = Initial | Runnable | Running | Waiting | Done

  /** `kinternalwaitstatus_t`. */
  datatype WaitStatus = Preparing | InWait | Satisfied

  /** `kwaitblockstatus_t`; a thread has one wait block. */
  datatype BlockStatus = Active | Acquired | Deactivated

  /** A thread lock: free, or taken by a processor. */
  datatype Holder = Free | HeldBy(cpu: Cpu)

  /** Where a thread's kernel code stands. */
  datatype Pc =
    | Unstarted
    | Outside
    // ke_wait: before the object is looked at; acquired at once; queued; own lock
    // taken; committed to sleep; about to be switched out; back from sleep
    | Prepare(o: Obj) | Got(o: Obj) | Queued(o: Obj) | Locked(o: Obj)
    | Committing(o: Obj) | Sleeping(o: Obj) | Finish(o: Obj)
    // release and ki_signal, with the queue of waiters to wake
    | Signal(o: Obj, wake: seq<Tid>)
    | TryPreparing(o: Obj, wake: seq<Tid>, t: Tid)
    | TryWaiting(o: Obj, wake: seq<Tid>, t: Tid)
    | Recheck(o: Obj, wake: seq<Tid>, t: Tid)
    | Acquire(o: Obj, wake: seq<Tid>, t: Tid, mid: bool)
    | WakeUp(wake: seq<Tid>)
    // about to be switched out, or gone
    | Preempt | Exit | Gone

  datatype Thread = Thread(
    idleOf: Option<Cpu>,
    state: RunState,
    wait: WaitStatus,
    block: BlockStatus,
    pc: Pc,
    lock: Holder,
    owns: set<Obj>)

  /** A semaphore or mutex. `added` counts the initial and released tokens and
      `returned` the waits that have returned. */
  datatype Object = Object(
    mutex: bool,
    signalled: int,
    owner: Option<Tid>,
    queue: seq<Tid>,
    holder: Option<Tid>,
    added: int,
    returned: int)

  datatype Processor = Processor(cur: Tid, idle: Tid, runq: seq<Tid>, prev: Tid, switching: bool)

  datatype System = System(threads: map<Tid, Thread>, objects: map<Obj, Object>, cpus: map<Cpu, Processor>)

  function WithThread(s: System, t: Tid, th: Thread): System {
    s.(threads := s.threads[t := th])
  }

  function WithObject(s: System, o: Obj, ob: Object): System {
    s.(objects := s.objects[o := ob])
  }

  /** Processor `c` is executing thread `t`, which stands at `pc`. */
  predicate Executes(s: System, c: Cpu, t: Tid) {
    c in s.cpus && s.cpus[c].cur == t && !s.cpus[c].switching && t in s.threads
  }

  // -------------------------------------------------------------------- waiting

  predicate CanBeginWait(s: System, c: Cpu, t: Tid, o: Obj) {
    Executes(s, c, t) && s.threads[t].pc.Outside? && s.threads[t].idleOf.None? && o in s.objects
  }

  function BeginWait(s: System, t: Tid, o: Obj): System
    requires t in s.threads
  {
    WithThread(s, t, s.threads[t].(wait := Preparing, pc := Prepare(o)))
  }

  /** `ki_object_acquire`. */
  function Take(ob: Object, t: Tid): Object {
    ob.(signalled := ob.signalled - 1, owner := if ob.mutex then Some(t) else ob.owner)
  }

  predicate CanLookAtObject(s: System, c: Cpu, t: Tid) {
    && Executes(s, c, t) && s.threads[t].pc.Prepare? && s.threads[t].pc.o in s.objects
    && s.objects[s.threads[t].pc.o].holder.None?
  }

  /** Under the object lock: acquire a token at once, or queue the wait block. */
  function LookAtObject(s: System, t: Tid): System
    requires t in s.threads && s.threads[t].pc.Prepare? && s.threads[t].pc.o in s.objects
  {
    var th := s.threads[t];
    var o := th.pc.o;
    var ob := s.objects[o];
    if ob.signalled > 0 then
      if th.wait.Preparing? then
        WithObject(WithThread(s, t, th.(wait := Satisfied, pc := Got(o))), o, Take(ob, t))
      else WithThread(s, t, th.(pc := Queued(o)))
    else
      WithObject(WithThread(s, t, th.(block := Active, pc := Queued(o))), o, ob.(queue := ob.queue + [t]))
  }

  function Return(s: System, t: Tid, o: Obj): System
    requires t in s.threads && o in s.objects
  {
    var th, ob := s.threads[t], s.objects[o];
    WithObject(WithThread(s, t, th.(pc := Outside, owns := if ob.mutex then th.owns + {o} else th.owns)),
               o, ob.(returned := ob.returned + 1))
  }

  predicate CanReturnAtOnce(s: System, c: Cpu, t: Tid) {
    Executes(s, c, t) && s.threads[t].pc.Got? && s.threads[t].pc.o in s.objects
  }

  predicate CanLockSelf(s: System, c: Cpu, t: Tid) {
    Executes(s, c, t) && s.threads[t].pc.Queued? && s.threads[t].lock.Free?
  }

  function LockSelf(s: System, c: Cpu, t: Tid): System
    requires t in s.threads && s.threads[t].pc.Queued?
  {
    WithThread(s, t, s.threads[t].(lock := HeldBy(c), pc := Locked(s.threads[t].pc.o)))
  }

  predicate CanCommit(s: System, c: Cpu, t: Tid) {
    Executes(s, c, t) && s.threads[t].pc.Locked?
  }

  /** The compare-and-swap from preparing to waiting; if it fails, somebody has
      satisfied the wait already. */
  function Commit(s: System, t: Tid): System
    requires t in s.threads && s.threads[t].pc.Locked?
  {
    var th := s.threads[t];
    WithThread(s, t, if th.wait.Preparing? then th.(wait := InWait, pc := Committing(th.pc.o))
                     else th.(lock := Free, pc := Finish(th.pc.o)))
  }

  predicate CanSleep(s: System, c: Cpu, t: Tid) {
    Executes(s, c, t) && s.threads[t].pc.Committing?
  }

  function Sleep(s: System, t: Tid): System
    requires t in s.threads && s.threads[t].pc.Committing?
  {
    WithThread(s, t, s.threads[t].(state := Waiting, pc := Sleeping(s.threads[t].pc.o)))
  }

  predicate CanFinish(s: System, c: Cpu, t: Tid) {
    && Executes(s, c, t) && s.threads[t].pc.Finish? && s.threads[t].pc.o in s.objects
    && s.objects[s.threads[t].pc.o].holder.None?
  }

  /** The assertions at the end of `ke_wait`: the wait is satisfied, and by this
      object. */
  predicate FinishAsserts(s: System, t: Tid)
    requires t in s.threads
  {
    s.threads[t].wait.Satisfied? && s.threads[t].block.Acquired?
  }

  // ------------------------------------------------------------------ releasing

  datatype Amount = Add(n: nat) | MaxOne

  function NewCount(ob: Object, amount: Amount): int {
    match amount
    case Add(n) => ob.signalled + n
    case MaxOne => if ob.signalled == 0 then 1 else ob.signalled
  }

  predicate CanRelease(s: System, c: Cpu, t: Tid, o: Obj) {
    && Executes(s, c, t) && s.threads[t].pc.Outside? && o in s.objects && s.objects[o].holder.None?
    && !s.objects[o].mutex
  }

  /** `ke_semaphore_release` and `ke_semaphore_release_maxone`. */
  function Release(s: System, t: Tid, o: Obj, amount: Amount): System
    requires t in s.threads && o in s.objects
  {
    var ob := s.objects[o];
    var count := NewCount(ob, amount);
    WithObject(WithThread(s, t, s.threads[t].(pc := Signal(o, []))),
               o, ob.(signalled := count, holder := Some(t), added := ob.added + count - ob.signalled))
  }

  /** A mutex is released by a thread that has acquired it. */
  predicate CanReleaseMutex(s: System, c: Cpu, t: Tid, o: Obj) {
    && Executes(s, c, t) && s.threads[t].pc.Outside? && o in s.objects && s.objects[o].holder.None?
    && s.objects[o].mutex && o in s.threads[t].owns
  }

  /** The assertions of `ke_mutex_release`. */
  predicate ReleaseAsserts(s: System, t: Tid, o: Obj)
    requires o in s.objects
  {
    s.objects[o].owner == Some(t) && s.objects[o].signalled + 1 <= 1
  }

  function ReleaseMutex(s: System, t: Tid, o: Obj): System
    requires t in s.threads && o in s.objects
  {
    var th, ob := s.threads[t], s.objects[o];
    WithObject(WithThread(s, t, th.(pc := Signal(o, []), owns := th.owns - {o})),
               o, ob.(owner := None, signalled := ob.signalled + 1, holder := Some(t), added := ob.added + 1))
  }

  predicate CanSignal(s: System, c: Cpu, t: Tid) {
    Executes(s, c, t) && s.threads[t].pc.Signal? && s.threads[t].pc.o in s.objects
  }

  /** The head of the loop of `ki_signal`: take the first waiter off the queue, or
      drop the object lock. */
  function SignalNext(s: System, t: Tid): System
    requires t in s.threads && s.threads[t].pc.Signal? && s.threads[t].pc.o in s.objects
  {
    var th := s.threads[t];
    var Signal(o, wake) := th.pc;
    var ob := s.objects[o];
    if ob.queue != [] && ob.signalled > 0 then
      WithObject(WithThread(s, t, th.(pc := TryPreparing(o, wake, ob.queue[0]))), o, ob.(queue := ob.queue[1..]))
    else
      WithObject(WithThread(s, t, th.(pc := WakeUp(wake))), o, ob.(holder := None))
  }

  predicate CanTry(s: System, c: Cpu, t: Tid) {
    && Executes(s, c, t) && (s.threads[t].pc.TryPreparing? || s.threads[t].pc.TryWaiting? || s.threads[t].pc.Recheck?)
    && s.threads[t].pc.t in s.threads
  }

  /** One round of `ki_waitblock_try_to_satisfy`: a compare-and-swap that succeeds
      only from the status it expects, and the re-read after both have failed. */
  function Try(s: System, t: Tid): System
    requires t in s.threads
    requires s.threads[t].pc.TryPreparing? || s.threads[t].pc.TryWaiting? || s.threads[t].pc.Recheck?
    requires s.threads[t].pc.t in s.threads
  {
    var th := s.threads[t];
    var h := th.pc.t;
    var target := s.threads[h];
    match th.pc
    case TryPreparing(o, wake, _) =>
      if target.wait.Preparing? then
        WithThread(WithThread(s, h, target.(wait := Satisfied)), t, th.(pc := Acquire(o, wake, h, false)))
      else WithThread(s, t, th.(pc := TryWaiting(o, wake, h)))
    case TryWaiting(o, wake, _) =>
      if target.wait.InWait? then
        WithThread(WithThread(s, h, target.(wait := Satisfied)), t, th.(pc := Acquire(o, wake, h, true)))
      else WithThread(s, t, th.(pc := Recheck(o, wake, h)))
    case Recheck(o, wake, _) =>
      if target.wait.Satisfied? then
        WithThread(WithThread(s, h, target.(block := Deactivated)), t, th.(pc := Signal(o, wake)))
      else WithThread(s, t, th.(pc := TryPreparing(o, wake, h)))
  }

  predicate CanAcquire(s: System, c: Cpu, t: Tid) {
    && Executes(s, c, t) && s.threads[t].pc.Acquire? && s.threads[t].pc.o in s.objects
    && s.threads[t].pc.t in s.threads
  }

  /** Mark the wait block, queue a sleeper for waking, and take the token for it. */
  function AcquireFor(s: System, t: Tid): System
    requires t in s.threads && s.threads[t].pc.Acquire? && s.threads[t].pc.o in s.objects
    requires s.threads[t].pc.t in s.threads
  {
    var th := s.threads[t];
    var Acquire(o, wake, h, mid) := th.pc;
    WithObject(WithThread(WithThread(s, h, s.threads[h].(block := Acquired)),
                          t, th.(pc := Signal(o, if mid then wake + [h] else wake))),
               o, Take(s.objects[o], h))
  }

  // --------------------------------------------------------- waking and running

  /** Put a thread at the head of a run queue (`ki_thread_resume_locked`). */
  function OnQueue(s: System, d: Cpu, h: Tid): System
    requires d in s.cpus
  {
    s.(cpus := s.cpus[d := s.cpus[d].(runq := [h] + s.cpus[d].runq)])
  }

  /** The waker needs the sleeper's lock; which processor it chooses is open. */
  predicate CanWake(s: System, c: Cpu, t: Tid, d: Cpu) {
    && Executes(s, c, t) && s.threads[t].pc.WakeUp? && d in s.cpus
    && (s.threads[t].pc.wake != [] ==>
          s.threads[t].pc.wake[0] in s.threads && s.threads[s.threads[t].pc.wake[0]].lock.Free?)
  }

  /** The assertion of `ki_wake_waiter`. */
  predicate WakeAsserts(s: System, t: Tid)
    requires t in s.threads && s.threads[t].pc.WakeUp?
  {
    var wake := s.threads[t].pc.wake;
    wake != [] && wake[0] in s.threads ==> s.threads[wake[0]].state.Waiting? && s.threads[wake[0]].wait.Satisfied?
  }

  function Wake(s: System, t: Tid, d: Cpu): System
    requires t in s.threads && s.threads[t].pc.WakeUp? && d in s.cpus
    requires s.threads[t].pc.wake != [] ==> s.threads[t].pc.wake[0] in s.threads
  {
    var th := s.threads[t];
    var wake := th.pc.wake;
    if wake == [] then WithThread(s, t, th.(pc := Outside))
    else
      OnQueue(WithThread(WithThread(s, wake[0], s.threads[wake[0]].(state := Runnable)), t,
                         th.(pc := WakeUp(wake[1..]))),
              d, wake[0])
  }

  /** `ke_thread_resume` of a thread that has not run yet. */
  predicate CanStart(s: System, c: Cpu, t: Tid, h: Tid, d: Cpu) {
    && Executes(s, c, t) && s.threads[t].pc.Outside? && h in s.threads && s.threads[h].pc.Unstarted?
    && s.threads[h].lock.Free? && d in s.cpus
  }

  function Start(s: System, h: Tid, d: Cpu): System
    requires h in s.threads && d in s.cpus
  {
    OnQueue(WithThread(s, h, s.threads[h].(pc := Outside)), d, h)
  }

  /** Rescheduling interrupts happen only outside the dispatcher, which runs at
      raised interrupt level. */
  predicate CanPreempt(s: System, c: Cpu, t: Tid) {
    Executes(s, c, t) && s.threads[t].pc.Outside? && s.threads[t].lock.Free?
  }

  function BeginPreempt(s: System, c: Cpu, t: Tid): System
    requires t in s.threads
  {
    WithThread(s, t, s.threads[t].(lock := HeldBy(c), pc := Preempt))
  }

  predicate CanExit(s: System, c: Cpu, t: Tid) {
    CanPreempt(s, c, t) && s.threads[t].idleOf.None?
  }

  function BeginExit(s: System, c: Cpu, t: Tid): System
    requires t in s.threads
  {
    WithThread(s, t, s.threads[t].(lock := HeldBy(c), state := Done, pc := Exit))
  }

  predicate CanReschedule(s: System, c: Cpu, t: Tid) {
    && Executes(s, c, t) && (s.threads[t].pc.Sleeping? || s.threads[t].pc.Preempt? || s.threads[t].pc.Exit?)
    && s.cpus[c].idle in s.threads && (forall x :: x in s.cpus[c].runq ==> x in s.threads)
  }

  /** The assertions at the head of `ki_reschedule`. */
  predicate RescheduleAsserts(s: System, c: Cpu, t: Tid)
    requires t in s.threads && c in s.cpus
  {
    s.threads[t].lock == HeldBy(c) && (t == s.cpus[c].idle ==> s.threads[t].state.Running?)
  }

  /** Where a thread continues when it is next run. */
  function Resumed(pc: Pc): Pc {
    match pc
    case Sleeping(o) => Finish(o)
    case Preempt => Outside
    case Exit => Gone
    case _ => pc
  }

  /** The old thread as it is left, and whether it goes back on the run queue. */
  function SwitchedOut(p: Processor, t: Tid, th: Thread): (Thread, bool) {
    if t != p.idle && th.state.Running? then (th.(state := Runnable, pc := Resumed(th.pc)), true)
    else (th.(pc := Resumed(th.pc)), false)
  }

  /** `ki_reschedule` up to the switch: requeue the old thread if it was running,
      pick the next one, and leave the old thread's lock to be dropped after the
      switch. */
  function Reschedule(s: System, c: Cpu, t: Tid): System
    requires c in s.cpus && t in s.threads && s.cpus[c].idle in s.threads
    requires forall x :: x in s.cpus[c].runq ==> x in s.threads
  {
    var p := s.cpus[c];
    var (th, requeue) := SwitchedOut(p, t, s.threads[t]);
    var runq := if requeue then p.runq + [t] else p.runq;
    var next := if runq == [] then p.idle else runq[0];
    var threads := s.threads[t := th];
    s.(threads := threads[next := threads[next].(state := Running)],
       cpus := s.cpus[c := p.(cur := next, runq := if runq == [] then [] else runq[1..], prev := t, switching := true)])
  }

  predicate CanSwitchDone(s: System, c: Cpu) {
    c in s.cpus && s.cpus[c].switching && s.cpus[c].prev in s.threads
  }

  /** The new thread drops the old one's lock. */
  function SwitchDone(s: System, c: Cpu): System
    requires c in s.cpus && s.cpus[c].prev in s.threads
  {
    var p := s.cpus[c];
    WithThread(s, p.prev, s.threads[p.prev].(lock := Free)).(cpus := s.cpus[c := p.(switching := false)])
  }

  // ---------------------------------------------------------------- the machine

  datatype Step =
    | BeginWaitStep(c: Cpu, t: Tid, o: Obj)
    | LookStep(c: Cpu, t: Tid)
    | ReturnStep(c: Cpu, t: Tid)
    | LockStep(c: Cpu, t: Tid)
    | CommitStep(c: Cpu, t: Tid)
    | SleepStep(c: Cpu, t: Tid)
    | FinishStep(c: Cpu, t: Tid)
    | ReleaseStep(c: Cpu, t: Tid, o: Obj, amount: Amount)
    | ReleaseMutexStep(c: Cpu, t: Tid, o: Obj)
    | SignalStep(c: Cpu, t: Tid)
    | TryStep(c: Cpu, t: Tid)
    | AcquireStep(c: Cpu, t: Tid)
    | WakeStep(c: Cpu, t: Tid, d: Cpu)
    | StartStep(c: Cpu, t: Tid, h: Tid, d: Cpu)
    | PreemptStep(c: Cpu, t: Tid)
    | ExitStep(c: Cpu, t: Tid)
    | RescheduleStep(c: Cpu, t: Tid)
    | SwitchDoneStep(c: Cpu)

  predicate Enabled(s: System, st: Step) {
    match st
    case BeginWaitStep(c, t, o) => CanBeginWait(s, c, t, o)
    case LookStep(c, t) => CanLookAtObject(s, c, t)
    case ReturnStep(c, t) => CanReturnAtOnce(s, c, t)
    case LockStep(c, t) => CanLockSelf(s, c, t)
    case CommitStep(c, t) => CanCommit(s, c, t)
    case SleepStep(c, t) => CanSleep(s, c, t)
    case FinishStep(c, t) => CanFinish(s, c, t)
    case ReleaseStep(c, t, o, amount) => CanRelease(s, c, t, o)
    case ReleaseMutexStep(c, t, o) => CanReleaseMutex(s, c, t, o)
    case SignalStep(c, t) => CanSignal(s, c, t)
    case TryStep(c, t) => CanTry(s, c, t)
    case AcquireStep(c, t) => CanAcquire(s, c, t)
    case WakeStep(c, t, d) => CanWake(s, c, t, d)
    case StartStep(c, t, h, d) => CanStart(s, c, t, h, d)
    case PreemptStep(c, t) => CanPreempt(s, c, t)
    case ExitStep(c, t) => CanExit(s, c, t)
    case RescheduleStep(c, t) => CanReschedule(s, c, t)
    case SwitchDoneStep(c) => CanSwitchDone(s, c)
  }

  /** The kernel's own assertions at each step. */
  predicate Asserts(s: System, st: Step)
    requires Enabled(s, st)
  {
    match st
    case FinishStep(c, t) => FinishAsserts(s, t)
    case ReleaseMutexStep(c, t, o) => ReleaseAsserts(s, t, o)
    case WakeStep(c, t, d) => WakeAsserts(s, t)
    case RescheduleStep(c, t) => RescheduleAsserts(s, c, t)
    case _ => true
  }

  function Next(s: System, st: Step): System
    requires Enabled(s, st)
  {
    match st
    case BeginWaitStep(c, t, o) => BeginWait(s, t, o)
    case LookStep(c, t) => LookAtObject(s, t)
    case ReturnStep(c, t) => Return(s, t, s.threads[t].pc.o)
    case LockStep(c, t) => LockSelf(s, c, t)
    case CommitStep(c, t) => Commit(s, t)
    case SleepStep(c, t) => Sleep(s, t)
    case FinishStep(c, t) => Return(s, t, s.threads[t].pc.o)
    case ReleaseStep(c, t, o, amount) => Release(s, t, o, amount)
    case ReleaseMutexStep(c, t, o) => ReleaseMutex(s, t, o)
    case SignalStep(c, t) => SignalNext(s, t)
    case TryStep(c, t) => Try(s, t)
    case AcquireStep(c, t) => AcquireFor(s, t)
    case WakeStep(c, t, d) => Wake(s, t, d)
    case StartStep(c, t, h, d) => Start(s, h, d)
    case PreemptStep(c, t) => BeginPreempt(s, c, t)
    case ExitStep(c, t) => BeginExit(s, c, t)
    case RescheduleStep(c, t) => Reschedule(s, c, t)
    case SwitchDoneStep(c) => SwitchDone(s, c)
  }
}
