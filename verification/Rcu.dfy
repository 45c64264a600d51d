/**
  Read-copy-update generations. A CPU at a reschedule point clears its bit, retires its
  current batch of callbacks if the generation has gone past it, and promotes its next
  batch; each of the three is one step, between which other CPUs take theirs. The bitmask
  of CPUs still to go through such a point is a set.
 */
module Rcu {
  type Cb = nat

  datatype Stage = Outside | Cleared | Ripened

  datatype Cpu = Cpu(generation: nat, next: seq<Cb>, current: seq<Cb>, past: seq<Cb>, stage: Stage)

  datatype State = State(mask: set<nat>, generation: nat, highest: nat, cpus: seq<Cpu>)

  /** Every CPU's bit. */
  function All(n: nat): (r: set<nat>)
    ensures forall i: nat :: i in r <==> i < n
  {
    if n == 0 then {} else All(n - 1) + {n - 1}
  }

  function WithCpu(s: State, i: nat, c: Cpu): State
    requires i < |s.cpus|
  {
    s.(cpus := s.cpus[i := c])
  }

  // ------------------------------------------------------------------- the operations

  function StartGeneration(s: State): State {
    s.(mask := All(|s.cpus|), generation := s.generation + 1, highest := s.generation + 1)
  }

  /** The CPU's bit, and the end of the generation if it was the last. */
  function ClearBit(s: State, i: nat): State {
    if i !in s.mask then s
    else
      var s1 := s.(mask := s.mask - {i});
      if s1.mask != {} then s1
      else
        var s2 := s1.(generation := s.generation + 1);
        if s2.generation <= s2.highest then StartGeneration(s2) else s2
  }

  function Clear(s: State, i: nat): State
    requires i < |s.cpus|
  {
    WithCpu(ClearBit(s, i), i, s.cpus[i].(stage := Cleared))
  }

  predicate Ripe(s: State, i: nat)
    requires i < |s.cpus|
  {
    s.cpus[i].current != [] && s.generation > s.cpus[i].generation
  }

  function Ripen(s: State, i: nat): State
    requires i < |s.cpus|
  {
    var c := s.cpus[i];
    WithCpu(s, i,
            if Ripe(s, i) then c.(past := c.past + c.current, current := [], stage := Ripened)
            else c.(stage := Ripened))
  }

  predicate Promotes(s: State, i: nat)
    requires i < |s.cpus|
  {
    s.cpus[i].current == [] && s.cpus[i].next != []
  }

  /** The assertion made when a batch is promoted during a generation. */
  predicate AssertOk(s: State, i: nat)
    requires i < |s.cpus|
  {
    Promotes(s, i) && s.mask != {} ==> s.highest <= s.generation + 1
  }

  function Promote(s: State, i: nat): State
    requires i < |s.cpus|
  {
    var c := s.cpus[i];
    if !Promotes(s, i) then WithCpu(s, i, c.(stage := Outside))
    else
      var s1 := WithCpu(s, i, Cpu(s.generation + 1, [], c.next, c.past, Outside));
      if s.mask != {} then s1.(highest := s.generation + 2) else StartGeneration(s1)
  }

  function Call(s: State, i: nat, x: Cb): State
    requires i < |s.cpus|
  {
    WithCpu(s, i, s.cpus[i].(next := s.cpus[i].next + [x]))
  }

  /** One callback run off the past list. */
  function RunOne(s: State, i: nat): State
    requires i < |s.cpus| && s.cpus[i].past != []
  {
    WithCpu(s, i, s.cpus[i].(past := s.cpus[i].past[1..]))
  }

  // ---------------------------------------------------------------------- the history

  /**
    What the proofs follow beside the state. Of each CPU: the callbacks registered and the
    callbacks run on it, in order; the CPUs whose bit was set once its current batch was
    promoted, and those gone through a quiescent point since. Of each callback: the CPUs
    gone through one since it was registered. `early` are the callbacks promoted while
    some other CPU had gone through the generation in progress, and through no quiescent
    point since they were registered.
   */
  datatype History = History(
    called: seq<seq<Cb>>,
    ran: seq<seq<Cb>>,
    owed: seq<set<nat>>,
    since: seq<set<nat>>,
    passed: map<Cb, set<nat>>,
    early: set<Cb>)

  datatype Step = DoCall(i: nat, x: Cb) | DoClear(i: nat) | DoRipen(i: nat) | DoPromote(i: nat) | DoRun(i: nat)

  predicate Enabled(s: State, h: History, step: Step) {
    step.i < |s.cpus| &&
    var stage := s.cpus[step.i].stage;
    match step
    case DoCall(i, x) => stage == Outside && x !in h.passed
    case DoClear(i) => stage == Outside
    case DoRipen(i) => stage == Cleared
    case DoPromote(i) => stage == Ripened && AssertOk(s, i)
    case DoRun(i) => stage == Outside && s.cpus[i].past != []
  }

  function Next(s: State, h: History, step: Step): State
    requires Enabled(s, h, step)
  {
    match step
    case DoCall(i, x) => Call(s, i, x)
    case DoClear(i) => Clear(s, i)
    case DoRipen(i) => Ripen(s, i)
    case DoPromote(i) => Promote(s, i)
    case DoRun(i) => RunOne(s, i)
  }

  function Owed(s: State): set<nat> {
    if s.mask != {} then s.mask else All(|s.cpus|)
  }

  /** Every CPU has gone through a quiescent point since `x` was registered, or will have
      by the time the batch CPU `i` promotes now is retired. */
  predicate Served(s: State, h: History, i: nat, x: Cb) {
    x in h.passed && All(|s.cpus|) <= Owed(s) + {i} + h.passed[x]
  }

  function Also(ss: seq<set<nat>>, i: nat): seq<set<nat>> {
    seq(|ss|, k requires 0 <= k < |ss| => ss[k] + {i})
  }

  function Record(s: State, h: History, step: Step): History
    requires Enabled(s, h, step) && |h.called| == |h.ran| == |h.owed| == |h.since| == |s.cpus|
  {
    match step
    case DoCall(i, x) => h.(called := h.called[i := h.called[i] + [x]], passed := h.passed[x := {}])
    case DoClear(i) => h.(since := Also(h.since, i), passed := map x | x in h.passed :: h.passed[x] + {i})
    case DoRipen(i) => h
    case DoPromote(i) =>
      if !Promotes(s, i) then h
      else
        h.(owed := h.owed[i := Owed(s)], since := h.since[i := {}],
           early := h.early + set x | x in s.cpus[i].next && !Served(s, h, i, x))
    case DoRun(i) => h.(ran := h.ran[i := h.ran[i] + [s.cpus[i].past[0]]])
  }

  // -------------------------------------------------------------------- the invariant

  ghost predicate Sizes(s: State, h: History) {
    |h.called| == |h.ran| == |h.owed| == |h.since| == |s.cpus|
  }

  /** A CPU's callbacks are its run, past, current and next ones, in order. */
  ghost predicate QueueOk(s: State, h: History, i: nat)
    requires Sizes(s, h) && i < |s.cpus|
  {
    var c := s.cpus[i];
    h.ran[i] + c.past + c.current + c.next == h.called[i]
  }

  ghost predicate GlobalOk(s: State) {
    s.mask <= All(|s.cpus|) && (s.mask != {} ==> s.highest == s.generation || s.highest == s.generation + 2)
  }

  /** A current batch has gone past its generation exactly when the CPUs it was promoted
      to wait for have gone through a quiescent point since. */
  ghost predicate BatchOk(s: State, h: History, i: nat)
    requires Sizes(s, h) && i < |s.cpus|
  {
    var c := s.cpus[i];
    c.current != [] ==>
      if h.owed[i] <= h.since[i] then c.generation < s.generation
      else
        && s.mask == h.owed[i] - h.since[i]
        && (s.generation == c.generation || (s.generation + 1 == c.generation && s.highest == s.generation + 2))
  }

  ghost predicate OwnOk(s: State, h: History, i: nat)
    requires Sizes(s, h) && i < |s.cpus|
  {
    s.cpus[i].stage == Cleared && s.cpus[i].current != [] ==> i in h.since[i]
  }

  ghost predicate CurrentOk(s: State, h: History, i: nat, x: Cb)
    requires Sizes(s, h) && i < |s.cpus|
  {
    x in h.passed && h.since[i] <= h.passed[x] && (x !in h.early ==> All(|s.cpus|) <= h.owed[i] + {i} + h.passed[x])
  }

  ghost predicate DoneOk(s: State, h: History, x: Cb) {
    x in h.passed && (x !in h.early ==> All(|s.cpus|) <= h.passed[x])
  }

  ghost predicate CallbacksOk(s: State, h: History, i: nat)
    requires Sizes(s, h) && i < |s.cpus|
  {
    && (forall x :: x in s.cpus[i].next ==> x in h.passed)
    && (forall x :: x in s.cpus[i].current ==> CurrentOk(s, h, i, x))
    && (forall x :: x in s.cpus[i].past || x in h.ran[i] ==> DoneOk(s, h, x))
  }

  ghost predicate CpuOk(s: State, h: History, i: nat)
    requires Sizes(s, h) && i < |s.cpus|
  {
    QueueOk(s, h, i) && BatchOk(s, h, i) && OwnOk(s, h, i) && CallbacksOk(s, h, i)
  }

  ghost predicate Inv(s: State, h: History) {
    Sizes(s, h) && GlobalOk(s) && forall i :: 0 <= i < |s.cpus| ==> CpuOk(s, h, i)
  }

  // ------------------------------------------------------------------------- clearing

  /** What clearing a bit does to the generation. */
  lemma {:induction false} ClearBitIs(s: State, i: nat)
    requires GlobalOk(s)
    ensures var s' := ClearBit(s, i);
            && GlobalOk(s') && s'.cpus == s.cpus && s.generation <= s'.generation
            && (i !in s.mask ==> s' == s)
            && (i in s.mask && s.mask - {i} != {} ==> s' == s.(mask := s.mask - {i}))
            && (i in s.mask && s.mask - {i} == {} ==>
                  s'.generation > s.generation && (s.highest > s.generation ==> s'.generation > s.generation + 1))
  {
  }

  lemma {:induction false} ClearBatch(s: State, h: History, i: nat, k: nat)
    requires Sizes(s, h) && GlobalOk(s) && i < |s.cpus| && k < |s.cpus| && BatchOk(s, h, k) && Enabled(s, h, DoClear(i))
    ensures Sizes(Clear(s, i), Record(s, h, DoClear(i))) && BatchOk(Clear(s, i), Record(s, h, DoClear(i)), k)
  {
    ClearBitIs(s, i);
    var s', h' := Clear(s, i), Record(s, h, DoClear(i));
    hide ClearBit, GlobalOk;
    var c := s.cpus[k];
    if c.current != [] && !(h.owed[k] <= h.since[k]) {
      assert h'.owed[k] - h'.since[k] == s.mask - {i};
      assert h'.owed[k] <= h'.since[k] <==> s.mask - {i} == {};
    }
  }

  lemma {:induction false} ClearKeeps(s: State, h: History, i: nat)
    requires Inv(s, h) && Enabled(s, h, DoClear(i))
    ensures Inv(Clear(s, i), Record(s, h, DoClear(i)))
  {
    var s', h' := Clear(s, i), Record(s, h, DoClear(i));
    ClearBitIs(s, i);
    hide ClearBit, GlobalOk, All, BatchOk;
    assert GlobalOk(s') by { ClearGlobal(s, i); }
    forall k | 0 <= k < |s'.cpus| ensures CpuOk(s', h', k) {
      assert CpuOk(s, h, k);
      ClearBatch(s, h, i, k);
      ClearCallbacks(s, h, i, k);
    }
  }

  lemma {:induction false} ClearGlobal(s: State, i: nat)
    requires GlobalOk(s) && i < |s.cpus|
    ensures GlobalOk(Clear(s, i))
  {
    ClearBitIs(s, i);
  }

  lemma {:induction false} ClearCallbacks(s: State, h: History, i: nat, k: nat)
    requires Sizes(s, h) && GlobalOk(s) && Enabled(s, h, DoClear(i)) && k < |s.cpus| && CallbacksOk(s, h, k)
    ensures Sizes(Clear(s, i), Record(s, h, DoClear(i))) && CallbacksOk(Clear(s, i), Record(s, h, DoClear(i)), k)
  {
    ClearBitIs(s, i);
    var s', h' := Clear(s, i), Record(s, h, DoClear(i));
    hide ClearBit, GlobalOk, All;
    forall x | x in s'.cpus[k].current ensures CurrentOk(s', h', k, x) {
      assert CurrentOk(s, h, k, x);
    }
    forall x | x in s'.cpus[k].past || x in h'.ran[k] ensures DoneOk(s', h', x) {
      assert DoneOk(s, h, x);
    }
  }

  // --------------------------------------------------------------- the other CPUs' part

  /** A CPU that takes no part in a step: it stays right while the global state only moves
      on, and the history of its own batch and of its callbacks stays. */
  lemma {:induction false} OtherCallbacks(s: State, h: History, s': State, h': History, k: nat)
    requires Sizes(s, h) && Sizes(s', h') && |s'.cpus| == |s.cpus| && k < |s.cpus| && CallbacksOk(s, h, k)
    requires s'.cpus[k] == s.cpus[k] && h'.ran[k] == h.ran[k] && h'.owed[k] == h.owed[k] && h'.since[k] == h.since[k]
    requires forall x :: x in h.passed ==> x in h'.passed && h.passed[x] <= h'.passed[x]
    requires h.early <= h'.early
    ensures CallbacksOk(s', h', k)
  {
    hide All;
    forall x | x in s'.cpus[k].current ensures CurrentOk(s', h', k, x) {
      assert CurrentOk(s, h, k, x);
    }
    forall x | x in s'.cpus[k].past || x in h'.ran[k] ensures DoneOk(s', h', x) {
      assert DoneOk(s, h, x);
    }
  }

  // ------------------------------------------------------------------------- ripening

  /** A batch that is ripe has been waited for by every CPU it was promoted to wait for;
      and it is ripe as soon as that is so. */
  lemma {:induction false} RipeExactly(s: State, h: History, i: nat)
    requires Inv(s, h) && i < |s.cpus| && s.cpus[i].current != []
    ensures Ripe(s, i) <==> h.owed[i] <= h.since[i]
  {
    assert CpuOk(s, h, i);
  }

  lemma {:induction false} RipenOwn(s: State, h: History, i: nat)
    requires Inv(s, h) && Enabled(s, h, DoRipen(i)) && Ripe(s, i)
    ensures forall x :: x in s.cpus[i].current ==> DoneOk(s, h, x)
  {
    RipeExactly(s, h, i);
    assert CpuOk(s, h, i);
    forall x | x in s.cpus[i].current ensures DoneOk(s, h, x) {
      assert CurrentOk(s, h, i, x);
    }
  }

  lemma {:induction false} RipenKeeps(s: State, h: History, i: nat)
    requires Inv(s, h) && Enabled(s, h, DoRipen(i))
    ensures Inv(Ripen(s, i), h)
  {
    var s' := Ripen(s, i);
    if Ripe(s, i) {
      RipenOwn(s, h, i);
    }
    forall k | 0 <= k < |s'.cpus| ensures CpuOk(s', h, k) {
      assert CpuOk(s, h, k);
      if k != i {
        OtherCallbacks(s, h, s', h, k);
      } else {
        RipenCpu(s, h, i);
      }
    }
  }

  lemma {:induction false} RipenCpu(s: State, h: History, i: nat)
    requires Sizes(s, h) && Enabled(s, h, DoRipen(i)) && CpuOk(s, h, i)
    requires Ripe(s, i) ==> forall x :: x in s.cpus[i].current ==> DoneOk(s, h, x)
    ensures CpuOk(Ripen(s, i), h, i)
  {
    var s' := Ripen(s, i);
    var c := s.cpus[i];
    assert h.ran[i] + (c.past + c.current) + [] + c.next == h.ran[i] + c.past + c.current + c.next;
    hide All, BatchOk;
    forall x | x in s'.cpus[i].current ensures CurrentOk(s', h, i, x) {
      assert CurrentOk(s, h, i, x);
    }
    forall x | x in s'.cpus[i].past || x in h.ran[i] ensures DoneOk(s', h, x) {
      assert DoneOk(s, h, x);
    }
    assert BatchOk(s', h, i) by { RipenBatch(s, h, i); }
  }

  lemma {:induction false} RipenBatch(s: State, h: History, i: nat)
    requires Sizes(s, h) && Enabled(s, h, DoRipen(i)) && BatchOk(s, h, i)
    ensures BatchOk(Ripen(s, i), h, i)
  {
  }

  // ------------------------------------------------------------------------ promoting

  lemma {:induction false} NoneLeft(a: set<nat>, b: set<nat>)
    ensures a - b == {} <==> a <= b
  {
    forall x | a - b == {} && x in a ensures x in b {
      assert x !in a - b;
    }
  }

  lemma {:induction false} PromoteOther(s: State, h: History, i: nat, k: nat)
    requires Inv(s, h) && Enabled(s, h, DoPromote(i)) && Promotes(s, i) && k < |s.cpus| && k != i
    ensures Sizes(Promote(s, i), Record(s, h, DoPromote(i))) && CpuOk(Promote(s, i), Record(s, h, DoPromote(i)), k)
  {
    var s', h' := Promote(s, i), Record(s, h, DoPromote(i));
    assert CpuOk(s, h, k);
    OtherCallbacks(s, h, s', h', k);
    var c := s.cpus[k];
    if c.current != [] && s.mask == {} {
      NoneLeft(h.owed[k], h.since[k]);
    }
    hide All, CallbacksOk;
  }

  /** A batch promoted waits for the CPUs whose bits are set from then on. */
  lemma {:induction false} PromoteBatch(s: State, h: History, i: nat)
    requires Sizes(s, h) && Enabled(s, h, DoPromote(i)) && Promotes(s, i)
    ensures Sizes(Promote(s, i), Record(s, h, DoPromote(i))) && BatchOk(Promote(s, i), Record(s, h, DoPromote(i)), i)
  {
    var h' := Record(s, h, DoPromote(i));
    assert i in All(|s.cpus|);
    assert h'.owed[i] - h'.since[i] == h'.owed[i] && !(h'.owed[i] <= {});
  }

  lemma {:induction false} PromoteOwn(s: State, h: History, i: nat)
    requires Sizes(s, h) && Enabled(s, h, DoPromote(i)) && Promotes(s, i) && CpuOk(s, h, i)
    ensures Sizes(Promote(s, i), Record(s, h, DoPromote(i))) && CpuOk(Promote(s, i), Record(s, h, DoPromote(i)), i)
  {
    var s', h' := Promote(s, i), Record(s, h, DoPromote(i));
    PromoteBatch(s, h, i);
    hide BatchOk, All;
    var c := s.cpus[i];
    assert h.ran[i] + c.past + c.next + [] == h.ran[i] + c.past + [] + c.next;
    forall x | x in s'.cpus[i].current ensures CurrentOk(s', h', i, x) {
      assert x in c.next;
    }
    forall x | x in s'.cpus[i].past || x in h'.ran[i] ensures DoneOk(s', h', x) {
      assert DoneOk(s, h, x);
    }
  }

  lemma {:induction false} PromoteKeeps(s: State, h: History, i: nat)
    requires Inv(s, h) && Enabled(s, h, DoPromote(i))
    ensures Inv(Promote(s, i), Record(s, h, DoPromote(i)))
  {
    var s', h' := Promote(s, i), Record(s, h, DoPromote(i));
    forall k | 0 <= k < |s'.cpus| ensures CpuOk(s', h', k) {
      assert CpuOk(s, h, k);
      if !Promotes(s, i) {
        IdleCpu(s, h, s', i, k);
      } else if k != i {
        PromoteOther(s, h, i, k);
      } else {
        PromoteOwn(s, h, i);
      }
    }
  }

  /** A CPU whose lists and generation stay; it is not on its way to retiring a batch. */
  lemma {:induction false} IdleCpu(s: State, h: History, s': State, i: nat, k: nat)
    requires Sizes(s, h) && i < |s.cpus| && k < |s.cpus| && CpuOk(s, h, k)
    requires s' == WithCpu(s, i, s.cpus[i].(stage := Outside))
    ensures CpuOk(s', h, k)
  {
    hide All;
    forall x | x in s'.cpus[k].current ensures CurrentOk(s', h, k, x) {
      assert CurrentOk(s, h, k, x);
    }
    forall x | x in s'.cpus[k].past || x in h.ran[k] ensures DoneOk(s', h, x) {
      assert DoneOk(s, h, x);
    }
  }

  // ------------------------------------------------------------- registering and running

  lemma {:induction false} CallKeeps(s: State, h: History, i: nat, x: Cb)
    requires Inv(s, h) && Enabled(s, h, DoCall(i, x))
    ensures Inv(Call(s, i, x), Record(s, h, DoCall(i, x)))
  {
    var s', h' := Call(s, i, x), Record(s, h, DoCall(i, x));
    forall k | 0 <= k < |s'.cpus| ensures CpuOk(s', h', k) {
      assert CpuOk(s, h, k);
      if k != i {
        OtherCallbacks(s, h, s', h', k);
      } else {
        CallOwn(s, h, i, x);
      }
    }
  }

  lemma {:induction false} CallOwn(s: State, h: History, i: nat, x: Cb)
    requires Sizes(s, h) && Enabled(s, h, DoCall(i, x)) && CpuOk(s, h, i)
    ensures Sizes(Call(s, i, x), Record(s, h, DoCall(i, x))) && CpuOk(Call(s, i, x), Record(s, h, DoCall(i, x)), i)
  {
    hide All;
    var s', h' := Call(s, i, x), Record(s, h, DoCall(i, x));
    var c := s.cpus[i];
    assert h.ran[i] + c.past + c.current + (c.next + [x]) == h.ran[i] + c.past + c.current + c.next + [x];
    forall y | y in s'.cpus[i].current ensures CurrentOk(s', h', i, y) {
      assert CurrentOk(s, h, i, y);
    }
    forall y | y in s'.cpus[i].past || y in h'.ran[i] ensures DoneOk(s', h', y) {
      assert DoneOk(s, h, y);
    }
  }

  lemma {:induction false} RunKeeps(s: State, h: History, i: nat)
    requires Inv(s, h) && Enabled(s, h, DoRun(i))
    ensures Inv(RunOne(s, i), Record(s, h, DoRun(i)))
  {
    var s', h' := RunOne(s, i), Record(s, h, DoRun(i));
    forall k | 0 <= k < |s'.cpus| ensures CpuOk(s', h', k) {
      assert CpuOk(s, h, k);
      if k != i {
        OtherCallbacks(s, h, s', h', k);
      } else {
        RunOwn(s, h, i);
      }
    }
  }

  lemma {:induction false} RunOwn(s: State, h: History, i: nat)
    requires Sizes(s, h) && Enabled(s, h, DoRun(i)) && CpuOk(s, h, i)
    ensures Sizes(RunOne(s, i), Record(s, h, DoRun(i))) && CpuOk(RunOne(s, i), Record(s, h, DoRun(i)), i)
  {
    hide All;
    var s', h' := RunOne(s, i), Record(s, h, DoRun(i));
    var c := s.cpus[i];
    assert c.past == [c.past[0]] + c.past[1..];
    assert h.ran[i] + [c.past[0]] + c.past[1..] + c.current + c.next == h.ran[i] + c.past + c.current + c.next;
    forall y | y in s'.cpus[i].current ensures CurrentOk(s', h', i, y) {
      assert CurrentOk(s, h, i, y);
    }
    forall y | y in s'.cpus[i].past || y in h'.ran[i] ensures DoneOk(s', h', y) {
      assert DoneOk(s, h, y);
    }
  }

  // ---------------------------------------------------------------------------- runs

  lemma {:induction false} StepKeeps(s: State, h: History, step: Step)
    requires Inv(s, h) && Enabled(s, h, step)
    ensures Inv(Next(s, h, step), Record(s, h, step))
  {
    hide GlobalOk, CpuOk, All;
    match step
    case DoCall(i, x) => CallKeeps(s, h, i, x);
    case DoClear(i) => ClearKeeps(s, h, i);
    case DoRipen(i) => RipenKeeps(s, h, i);
    case DoPromote(i) => PromoteKeeps(s, h, i);
    case DoRun(i) => RunKeeps(s, h, i);
  }

  const FRESH := Cpu(0, [], [], [], Outside)

  function Boot(n: nat): State {
    State({}, 0, 0, seq(n, _ => FRESH))
  }

  function NoHistory(n: nat): History {
    History(seq(n, _ => []), seq(n, _ => []), seq(n, _ => {}), seq(n, _ => {}), map[], {})
  }

  ghost predicate Takes(s: State, h: History, step: Step, s': State, h': History) {
    Sizes(s, h) && Enabled(s, h, step) && s' == Next(s, h, step) && h' == Record(s, h, step)
  }

  /** Steps one after the other, with the history kept beside the states. */
  ghost predicate Path(ss: seq<State>, hs: seq<History>, steps: seq<Step>) {
    && |ss| == |hs| == |steps| + 1
    && forall j :: 0 <= j < |steps| ==> Takes(ss[j], hs[j], steps[j], ss[j + 1], hs[j + 1])
  }

  /** A run of `n` CPUs from boot. */
  ghost predicate Run(n: nat, ss: seq<State>, hs: seq<History>, steps: seq<Step>) {
    Path(ss, hs, steps) && ss[0] == Boot(n) && hs[0] == NoHistory(n)
  }

  lemma {:induction false} RunInv(n: nat, ss: seq<State>, hs: seq<History>, steps: seq<Step>, j: nat)
    requires Run(n, ss, hs, steps) && j < |ss|
    ensures Inv(ss[j], hs[j]) && |ss[j].cpus| == n
  {
    if j > 0 {
      RunInv(n, ss, hs, steps, j - 1);
      assert Takes(ss[j - 1], hs[j - 1], steps[j - 1], ss[j], hs[j]);
      hide Inv, GlobalOk, CpuOk, All;
      StepKeeps(ss[j - 1], hs[j - 1], steps[j - 1]);
      NextSize(ss[j - 1], hs[j - 1], steps[j - 1]);
    }
  }

  lemma {:induction false} NextSize(s: State, h: History, step: Step)
    requires Enabled(s, h, step)
    ensures |Next(s, h, step).cpus| == |s.cpus|
  {
  }

  /** In every run no callback, but for the early ones, has been retired or run before
      every CPU went through a quiescent point since it was registered; and each CPU's
      callbacks are its run, past, current and next ones, in the order registered. */
  lemma {:induction false} GracePeriod(n: nat, ss: seq<State>, hs: seq<History>, steps: seq<Step>, j: nat, i: nat)
    requires Run(n, ss, hs, steps) && j < |ss| && i < n
    ensures |ss[j].cpus| == |hs[j].ran| == |hs[j].called| == n
    ensures var (s, h) := (ss[j], hs[j]);
            var c := s.cpus[i];
            && h.called[i] == h.ran[i] + c.past + c.current + c.next
            && forall x :: (x in c.past || x in h.ran[i]) && x !in h.early ==> x in h.passed && All(n) <= h.passed[x]
  {
    RunInv(n, ss, hs, steps, j);
    var (s, h) := (ss[j], hs[j]);
    assert CpuOk(s, h, i);
    forall x | (x in s.cpus[i].past || x in h.ran[i]) && x !in h.early ensures x in h.passed && All(n) <= h.passed[x] {
      assert DoneOk(s, h, x);
    }
  }

  // -------------------------------------------------------------------- exactly once

  /** Every registration is a different one. */
  ghost predicate Unique(h: History) {
    && (forall i, a :: 0 <= i < |h.called| && 0 <= a < |h.called[i]| ==> h.called[i][a] in h.passed)
    && (forall i, k, a, b ::
          0 <= i < |h.called| && 0 <= k < |h.called| && 0 <= a < |h.called[i]| && 0 <= b < |h.called[k]| ==>
            h.called[i][a] == h.called[k][b] ==> i == k && a == b)
  }

  lemma {:induction false} UniqueKeeps(s: State, h: History, step: Step)
    requires Sizes(s, h) && Unique(h) && Enabled(s, h, step)
    ensures Unique(Record(s, h, step))
  {
  }

  /** In every run a callback registered is at one place in the run, past, current and next
      lists of one CPU, and at no other. */
  lemma {:induction false} OnePlace(n: nat, ss: seq<State>, hs: seq<History>, steps: seq<Step>, j: nat)
    requires Run(n, ss, hs, steps) && j < |ss|
    ensures Unique(hs[j]) && Sizes(ss[j], hs[j])
    ensures forall i :: 0 <= i < |ss[j].cpus| ==> QueueOk(ss[j], hs[j], i)
  {
    RunInv(n, ss, hs, steps, j);
    forall i | 0 <= i < |ss[j].cpus| ensures QueueOk(ss[j], hs[j], i) {
      assert CpuOk(ss[j], hs[j], i);
    }
    if j > 0 {
      OnePlace(n, ss, hs, steps, j - 1);
      assert Takes(ss[j - 1], hs[j - 1], steps[j - 1], ss[j], hs[j]);
      hide Unique, CpuOk, GlobalOk, QueueOk, All;
      UniqueKeeps(ss[j - 1], hs[j - 1], steps[j - 1]);
    }
  }

  // ------------------------------------------------------- promoting during a generation

  /** The assertion holds exactly when no batch has been promoted during the generation in
      progress yet. */
  lemma {:induction false} AssertExactly(s: State, h: History, i: nat)
    requires Inv(s, h) && i < |s.cpus|
    ensures AssertOk(s, i) <==> !(Promotes(s, i) && s.mask != {} && s.highest == s.generation + 2)
  {
  }

  /** A callback is sure to be waited for by every CPU exactly when its batch is promoted
      between generations, or every other CPU is still to go through the generation in
      progress or has gone through a quiescent point since the callback was registered. */
  lemma {:induction false} WaitsForAll(s: State, h: History, i: nat, x: Cb)
    requires Sizes(s, h) && Enabled(s, h, DoPromote(i)) && Promotes(s, i) && GlobalOk(s)
    requires x in s.cpus[i].next && x !in h.early && x in h.passed
    ensures x !in Record(s, h, DoPromote(i)).early <==>
            s.mask == {} || forall k: nat :: k < |s.cpus| && k != i ==> k in s.mask || k in h.passed[x]
  {
    var all, sum := All(|s.cpus|), Owed(s) + {i} + h.passed[x];
    if s.mask != {} && all <= sum {
      forall k: nat | k < |s.cpus| && k != i ensures k in s.mask || k in h.passed[x] {
        assert k in sum;
      }
    }
  }

  /** A batch that waits for all and is retired has been waited for by all. */
  lemma {:induction false} RipeWaited(s: State, h: History, i: nat)
    requires Inv(s, h) && Enabled(s, h, DoRipen(i)) && Ripe(s, i) && All(|s.cpus|) <= h.owed[i] + {i}
    ensures All(|s.cpus|) <= h.since[i]
  {
    RipeExactly(s, h, i);
    assert CpuOk(s, h, i);
  }

  ghost predicate Leads(s: State, h: History, s': State, h': History) {
    exists ss, hs, steps :: Path(ss, hs, steps) && ss[0] == s && hs[0] == h && ss[|steps|] == s' && hs[|steps|] == h'
  }

  lemma {:induction false} LeadsHere(s: State, h: History)
    ensures Leads(s, h, s, h)
  {
    assert Path([s], [h], []) && [s][0] == s && [h][0] == h;
  }

  lemma {:induction false} LeadsOn(s0: State, h0: History, s: State, h: History, step: Step)
    requires Leads(s0, h0, s, h) && Sizes(s, h) && Enabled(s, h, step)
    ensures Leads(s0, h0, Next(s, h, step), Record(s, h, step))
  {
    var s', h' := Next(s, h, step), Record(s, h, step);
    assert Takes(s, h, step, s', h');
    LeadsTake(s0, h0, s, h, step, s', h');
  }

  lemma {:induction false} LeadsTake(s0: State, h0: History, s: State, h: History, step: Step, s': State, h': History)
    requires Leads(s0, h0, s, h) && Takes(s, h, step, s', h')
    ensures Leads(s0, h0, s', h')
  {
    hide Takes;
    var ss, hs, steps :| Path(ss, hs, steps) && ss[0] == s0 && hs[0] == h0 && ss[|steps|] == s && hs[|steps|] == h;
    var ss', hs', steps' := ss + [s'], hs + [h'], steps + [step];
    forall j | 0 <= j < |steps'| ensures Takes(ss'[j], hs'[j], steps'[j], ss'[j + 1], hs'[j + 1]) {
      if j < |steps| {
        assert ss'[j] == ss[j] && hs'[j] == hs[j] && steps'[j] == steps[j];
        assert ss'[j + 1] == ss[j + 1] && hs'[j + 1] == hs[j + 1];
      }
    }
    assert Path(ss', hs', steps') && ss'[0] == s0 && hs'[0] == h0 && ss'[|steps'|] == s' && hs'[|steps'|] == h';
  }

  /** CPUs `todo` go through their quiescent points: CPU `i`'s batch is waited for by them,
      and nothing else about it changes. */
  ghost predicate Swept(s: State, h: History, s': State, h': History, i: nat, x: Cb, todo: set<nat>) {
    && Sizes(s, h) && Sizes(s', h') && i < |s.cpus| == |s'.cpus| && x in h.passed && x in h'.passed
    && s'.cpus[i] == s.cpus[i] && h'.owed == h.owed && h'.since[i] == h.since[i] + todo
    && h'.passed[x] == h.passed[x] + todo
  }

  lemma {:induction false} Sweep(s0: State, h0: History, s: State, h: History, i: nat, x: Cb, todo: set<nat>)
    returns (s': State, h': History)
    requires Inv(s, h) && Leads(s0, h0, s, h) && i < |s.cpus| && i !in todo && x in h.passed
    requires forall j :: j in todo ==> j < |s.cpus| && s.cpus[j].stage == Outside
    ensures Inv(s', h') && Leads(s0, h0, s', h') && Swept(s, h, s', h', i, x, todo)
    decreases todo
  {
    hide GlobalOk, CpuOk, Leads, All, ClearBit;
    if todo == {} {
      s', h' := s, h;
    } else {
      var j :| j in todo;
      ClearBitCpus(s, j);
      StepKeeps(s, h, DoClear(j));
      LeadsOn(s0, h0, s, h, DoClear(j));
      var s1, h1 := Next(s, h, DoClear(j)), Record(s, h, DoClear(j));
      s', h' := Sweep(s0, h0, s1, h1, i, x, todo - {j});
      assert h'.since[i] == h.since[i] + todo;
      assert h'.passed[x] == h.passed[x] + todo;
    }
  }

  lemma {:induction false} ClearBitCpus(s: State, j: nat)
    ensures ClearBit(s, j).cpus == s.cpus
  {
  }

  /** And otherwise it need not be: a batch promoted when CPU `k` has already gone through
      the generation in progress can be retired without `k` ever having gone through a
      quiescent point since. */
  lemma {:induction false} EarlyRetires(s: State, h: History, i: nat, x: Cb, k: nat) returns (s': State, h': History)
    requires Inv(s, h) && Enabled(s, h, DoPromote(i)) && Promotes(s, i) && x in s.cpus[i].next
    requires s.mask != {} && k !in s.mask && k != i && x in h.passed && k !in h.passed[x]
    requires forall j :: j in s.mask ==> j < |s.cpus| && (j == i || s.cpus[j].stage == Outside)
    ensures Leads(s, h, s', h') && Sizes(s', h') && i < |s'.cpus| && x in s'.cpus[i].past && x in h'.passed
    ensures k !in h'.passed[x]
  {
    hide GlobalOk, CpuOk, Leads, All, ClearBit;
    LeadsHere(s, h);
    StepKeeps(s, h, DoPromote(i));
    LeadsOn(s, h, s, h, DoPromote(i));
    var s1, h1 := Next(s, h, DoPromote(i)), Record(s, h, DoPromote(i));
    var s2, h2 := Sweep(s, h, s1, h1, i, x, s.mask - {i});
    ClearBitCpus(s2, i);
    StepKeeps(s2, h2, DoClear(i));
    LeadsOn(s, h, s2, h2, DoClear(i));
    var s3, h3 := Next(s2, h2, DoClear(i)), Record(s2, h2, DoClear(i));
    assert h3.owed[i] <= h3.since[i];
    RipeExactly(s3, h3, i);
    LeadsOn(s, h, s3, h3, DoRipen(i));
    s', h' := Next(s3, h3, DoRipen(i)), Record(s3, h3, DoRipen(i));
  }

  // ----------------------------------------------------------------------- the object

  class RcuDomain {
    var mask: set<nat>
    var generation: nat
    var highest: nat
    var cpus: seq<Cpu>

    function Abs(): State
      reads this
    {
      State(mask, generation, highest, cpus)
    }

    constructor (n: nat)
      ensures Abs() == Boot(n)
    {
      mask, generation, highest := {}, 0, 0;
      cpus := seq(n, _ => FRESH);
    }

    method Start()
      modifies this
      ensures Abs() == StartGeneration(old(Abs()))
    {
      mask := All(|cpus|);
      generation := generation + 1;
      highest := generation;
    }

    method NoteQuiescent(i: nat)
      requires i < |cpus|
      modifies this
      ensures Abs() == Clear(old(Abs()), i)
    {
      if i in mask {
        mask := mask - {i};
        if mask == {} {
          generation := generation + 1;
          if generation <= highest {
            Start();
          }
        }
      }
      cpus := cpus[i := cpus[i].(stage := Cleared)];
    }

    method RetireCurrent(i: nat)
      requires i < |cpus|
      modifies this`cpus
      ensures Abs() == Ripen(old(Abs()), i)
    {
      var c := cpus[i];
      if c.current != [] && generation > c.generation {
        c := c.(past := c.past + c.current, current := []);
      }
      cpus := cpus[i := c.(stage := Ripened)];
    }

    /** Answers whether the assertion held; the batch is moved before it is made. */
    method PromoteNext(i: nat) returns (ok: bool)
      requires i < |cpus|
      modifies this
      ensures ok == AssertOk(old(Abs()), i)
      ensures ok ==> Abs() == Promote(old(Abs()), i)
    {
      var c := cpus[i];
      if c.current != [] || c.next == [] {
        cpus := cpus[i := c.(stage := Outside)];
        return true;
      }
      cpus := cpus[i := Cpu(generation + 1, [], c.next, c.past, Outside)];
      if mask != {} {
        if highest > generation + 1 {
          return false;
        }
        highest := generation + 2;
      } else {
        Start();
      }
      return true;
    }

    /** `ki_rcu_quiet` with no other CPU in between. */
    method Quiet(i: nat) returns (ok: bool)
      requires i < |cpus|
      modifies this
      ensures var s := Ripen(Clear(old(Abs()), i), i);
              ok == AssertOk(s, i) && (ok ==> Abs() == Promote(s, i))
    {
      NoteQuiescent(i);
      RetireCurrent(i);
      ok := PromoteNext(i);
    }

    method Register(i: nat, x: Cb)
      requires i < |cpus|
      modifies this`cpus
      ensures Abs() == Call(old(Abs()), i, x)
    {
      cpus := cpus[i := cpus[i].(next := cpus[i].next + [x])];
    }

    /** `process_past_callbacks`: all of them, in order. What a callback does is not
        modelled. */
    method ProcessPast(i: nat) returns (ran: seq<Cb>)
      requires i < |cpus|
      modifies this`cpus
      ensures i < |old(cpus)| && ran == old(cpus[i].past) && cpus == old(cpus)[i := old(cpus[i]).(past := [])]
    {
      ran := [];
      while cpus[i].past != []
        invariant |cpus| == |old(cpus)| && ran + cpus[i].past == old(cpus[i].past)
        invariant cpus == old(cpus)[i := old(cpus[i]).(past := cpus[i].past)]
        decreases |cpus[i].past|
      {
        ran := ran + [cpus[i].past[0]];
        cpus := cpus[i := cpus[i].(past := cpus[i].past[1..])];
      }
    }
  }
}
