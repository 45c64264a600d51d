/**
  What waiters are told: reports say what was there when the watch was polled, a watch is
  dropped only when nothing it wants was there, and an event stays signalled only while
  there is something on the ready list.
 */
module EpollReports {
  import opened Queues
  import opened Epoll
  import opened EpollSafety

  // ---------------------------------------------------------------- what was polled

  /** The step from `ss[j]` is a scan of `ep` polling `e`. */
  ghost predicate Polls(ss: seq<State>, steps: seq<Step>, j: nat, ep: Ep, e: Eid)
    requires |ss| == |steps| + 1 && j < |steps|
  {
    steps[j].Proceed? && steps[j].a < |ss[j].stages| &&
    var st := ss[j].stages[steps[j].a];
    st.Scan? && st.ep == ep && st.rest != [] && st.rest[0] == e
  }

  /** Before `ss[n]` a scan polled the watch, and there was an unread byte or not. */
  ghost predicate Saw(ss: seq<State>, steps: seq<Step>, n: nat, ep: Ep, e: Eid, byte: bool)
    requires |ss| == |steps| + 1 && n <= |steps|
  {
    exists j :: 0 <= j < n && Polls(ss, steps, j, ep, e) && byte == (0 < ss[j].unread)
  }

  /** The report is what the watch wants of what was there when it was polled. */
  ghost predicate Honest(ss: seq<State>, steps: seq<Step>, n: nat, ep: Ep, p: Report)
    requires |ss| == |steps| + 1 && n <= |steps|
  {
    p.e in ss[n].entries &&
    var wants := ss[n].entries[p.e].wants;
    && p.events.output == wants.output && (p.events.input || p.events.output)
    && (if wants.input then Saw(ss, steps, n, ep, p.e, p.events.input)
        else !p.events.input && exists byte :: Saw(ss, steps, n, ep, p.e, byte))
  }

  ghost predicate StageHonest(ss: seq<State>, steps: seq<Step>, n: nat, st: Stage)
    requires |ss| == |steps| + 1 && n <= |steps|
  {
    && (st.Scan? || st.Polled? ==> forall k :: 0 <= k < |st.reports| ==> Honest(ss, steps, n, st.ep, st.reports[k]))
    && (st.Polled? ==> st.e in ss[n].entries && st.r.output && Saw(ss, steps, n, st.ep, st.e, st.r.input))
  }

  lemma {:induction false} SawLater(ss: seq<State>, steps: seq<Step>, n: nat, ep: Ep, e: Eid, byte: bool)
    requires |ss| == |steps| + 1 && n < |steps| && Saw(ss, steps, n, ep, e, byte)
    ensures Saw(ss, steps, n + 1, ep, e, byte)
  {
    var j :| 0 <= j < n && Polls(ss, steps, j, ep, e) && byte == (0 < ss[j].unread);
  }

  lemma {:induction false} HonestLater(ss: seq<State>, steps: seq<Step>, n: nat, ep: Ep, p: Report)
    requires |ss| == |steps| + 1 && n < |steps| && Honest(ss, steps, n, ep, p)
    requires forall e :: e in ss[n].entries ==> e in ss[n + 1].entries && ss[n + 1].entries[e] == ss[n].entries[e]
    ensures Honest(ss, steps, n + 1, ep, p)
  {
    if ss[n].entries[p.e].wants.input {
      SawLater(ss, steps, n, ep, p.e, p.events.input);
    } else {
      var byte :| Saw(ss, steps, n, ep, p.e, byte);
      SawLater(ss, steps, n, ep, p.e, byte);
    }
  }

  lemma {:induction false} StageLater(ss: seq<State>, steps: seq<Step>, n: nat, st: Stage)
    requires |ss| == |steps| + 1 && n < |steps| && StageHonest(ss, steps, n, st)
    requires forall e :: e in ss[n].entries ==> e in ss[n + 1].entries && ss[n + 1].entries[e] == ss[n].entries[e]
    ensures StageHonest(ss, steps, n + 1, st)
  {
    hide Honest, Saw;
    if st.Scan? || st.Polled? {
      forall k | 0 <= k < |st.reports| ensures Honest(ss, steps, n + 1, st.ep, st.reports[k]) {
        HonestLater(ss, steps, n, st.ep, st.reports[k]);
      }
    }
    if st.Polled? {
      SawLater(ss, steps, n, st.ep, st.e, st.r.input);
    }
  }

  /** Watches stay as they are once added. */
  lemma {:induction false} EntriesStay(s: State, step: Step)
    requires Enabled(s, step)
    ensures forall e :: e in s.entries ==> e in Next(s, step).entries && Next(s, step).entries[e] == s.entries[e]
    ensures |Next(s, step).stages| == |s.stages|
    ensures forall b :: 0 <= b < |s.stages| && !(step.Proceed? && step.a == b) ==>
              Next(s, step).stages[b] == s.stages[b] || (!step.Proceed? && !step.ReadByte? && step.a == b)
  {
    hide Free, Exists;
    if step.Proceed? {
      GoMoves(s, step.a);
    }
  }

  /** An activity that is not scanning has no reports, nor has one that begins to scan. */
  lemma {:induction false} FreshStage(s: State, step: Step, a: nat)
    requires Enabled(s, step) && a < |s.stages| && a < |Next(s, step).stages| && Next(s, step).stages[a] != s.stages[a]
    requires step == Proceed(a) ==> !s.stages[a].Scan? && !s.stages[a].Polled?
    ensures var st := Next(s, step).stages[a]; !st.Polled? && (st.Scan? ==> st.reports == [])
  {
    hide Free, Exists;
  }

  lemma {:induction false} NoReports(ss: seq<State>, steps: seq<Step>, n: nat, st: Stage)
    requires |ss| == |steps| + 1 && n <= |steps| && !st.Polled? && (st.Scan? ==> st.reports == [])
    ensures StageHonest(ss, steps, n, st)
  {
  }

  /** A scan polls the next watch. */
  lemma {:induction false} PollHonest(ss: seq<State>, steps: seq<Step>, n: nat, a: nat)
    requires |ss| == |steps| + 1 && n < |steps| && steps[n] == Proceed(a) && CanGo(ss[n], a)
    requires ss[n + 1] == Go(ss[n], a) && Inv(ss[n])
    requires ss[n].stages[a].Scan? && StageHonest(ss, steps, n, ss[n].stages[a])
    ensures StageHonest(ss, steps, n + 1, ss[n + 1].stages[a])
  {
    var s, st, st' := ss[n], ss[n].stages[a], ss[n + 1].stages[a];
    StageLater(ss, steps, n, st);
    assert StageOk(s, st);
    if st'.Polled? {
      assert st.rest[0] in Ready(s, st.ep);
      assert ReadyOk(s, st.ep);
      assert Polls(ss, steps, n, st.ep, st.rest[0]);
      assert Saw(ss, steps, n + 1, st.ep, st'.e, st'.r.input);
    }
  }

  /** A scan reports the watch it has polled, or drops it. */
  lemma {:induction false} ReportHonest(ss: seq<State>, steps: seq<Step>, n: nat, a: nat)
    requires |ss| == |steps| + 1 && n < |steps| && steps[n] == Proceed(a) && CanGo(ss[n], a)
    requires ss[n + 1] == Go(ss[n], a)
    requires ss[n].stages[a].Polled? && StageHonest(ss, steps, n, ss[n].stages[a])
    ensures StageHonest(ss, steps, n + 1, ss[n + 1].stages[a])
  {
    var st, st' := ss[n].stages[a], ss[n + 1].stages[a];
    StageLater(ss, steps, n, st);
    hide Saw;
    assert Saw(ss, steps, n + 1, st.ep, st.e, st.r.input);
  }

  lemma {:induction false} ProceedHonest(ss: seq<State>, steps: seq<Step>, n: nat, a: nat)
    requires |ss| == |steps| + 1 && n < |steps| && steps[n] == Proceed(a) && Enabled(ss[n], steps[n])
    requires ss[n + 1] == Next(ss[n], steps[n]) && Inv(ss[n]) && a < |ss[n].stages|
    requires StageHonest(ss, steps, n, ss[n].stages[a])
    ensures a < |ss[n + 1].stages| && StageHonest(ss, steps, n + 1, ss[n + 1].stages[a])
  {
    hide StageHonest, Inv, Go, CanGo;
    EntriesStay(ss[n], steps[n]);
    if ss[n].stages[a].Scan? {
      PollHonest(ss, steps, n, a);
    } else if ss[n].stages[a].Polled? {
      ReportHonest(ss, steps, n, a);
    } else if ss[n + 1].stages[a] == ss[n].stages[a] {
      StageLater(ss, steps, n, ss[n].stages[a]);
    } else {
      FreshStage(ss[n], steps[n], a);
      NoReports(ss, steps, n + 1, ss[n + 1].stages[a]);
    }
  }

  lemma {:induction false} RunHonest(ss: seq<State>, steps: seq<Step>, n: nat, a: nat)
    requires Run(ss, steps) && n < |ss| && a < |ss[n].stages|
    ensures StageHonest(ss, steps, n, ss[n].stages[a])
  {
    hide StageHonest, Inv, Go, CanGo, Enabled;
    if n == 0 {
      NoReports(ss, steps, n, ss[n].stages[a]);
    } else {
      var s, step := ss[n - 1], steps[n - 1];
      RunKeeps(ss, steps, n - 1);
      EntriesStay(s, step);
      RunHonest(ss, steps, n - 1, a);
      if step == Proceed(a) {
        ProceedHonest(ss, steps, n - 1, a);
      } else if ss[n].stages[a] == s.stages[a] {
        StageLater(ss, steps, n - 1, s.stages[a]);
      } else {
        FreshStage(s, step, a);
        NoReports(ss, steps, n, ss[n].stages[a]);
      }
    }
  }

  /** In every run what a scan is to hand to its waiter is, for each watch, exactly what the
      watch wants of what was there when it was polled: input if a byte was unread, and
      output. */
  lemma {:induction false} ReportsHonest(ss: seq<State>, steps: seq<Step>, n: nat, a: nat, k: nat)
    requires Run(ss, steps) && n < |ss| && a < |ss[n].stages| && ss[n].stages[a].Scan?
    requires k < |ss[n].stages[a].reports|
    ensures var Report(e, events) := ss[n].stages[a].reports[k];
            && e in ss[n].entries && (events.input || events.output)
            && exists j :: 0 <= j < n && Polls(ss, steps, j, ss[n].stages[a].ep, e)
                           && events.input == (0 < ss[j].unread && ss[n].entries[e].wants.input)
                           && events.output == ss[n].entries[e].wants.output
  {
    RunHonest(ss, steps, n, a);
    var st := ss[n].stages[a];
    assert Honest(ss, steps, n, st.ep, st.reports[k]);
    var p := st.reports[k];
    var byte :| Saw(ss, steps, n, st.ep, p.e, byte) && p.events.input == (byte && ss[n].entries[p.e].wants.input);
    var j :| 0 <= j < n && Polls(ss, steps, j, st.ep, p.e) && byte == (0 < ss[j].unread);
  }

  /** In every run a watch leaves its ready list only when a scan has polled it and there was
      neither an unread byte for a watch that wants input nor a want for output. */
  lemma {:induction false} LeavesUnready(ss: seq<State>, steps: seq<Step>, n: nat, ep: Ep, e: Eid)
    requires Run(ss, steps) && n < |steps| && e in Ready(ss[n], ep) && e !in Ready(ss[n + 1], ep)
    ensures e in ss[n].entries && !ss[n].entries[e].wants.output
    ensures exists j :: 0 <= j < n && Polls(ss, steps, j, ep, e)
                        && !(0 < ss[j].unread && ss[n].entries[e].wants.input)
  {
    RunKeeps(ss, steps, n);
    var s := ss[n];
    assert ReadyOk(s, ep);
    var a := Leaver(s, steps[n], ep, e);
    RunHonest(ss, steps, n, a);
    var st := s.stages[a];
    var j :| 0 <= j < n && Polls(ss, steps, j, ep, e) && st.r.input == (0 < ss[j].unread);
  }

  /** What takes a watch off a ready list is a scan that saw it unready. */
  lemma {:induction false} Leaver(s: State, step: Step, ep: Ep, e: Eid) returns (a: nat)
    requires Enabled(s, step) && e in Ready(s, ep) && e !in Ready(Next(s, step), ep)
    ensures step == Proceed(a) && a < |s.stages|
    ensures s.stages[a].Polled? && s.stages[a].ep == ep && s.stages[a].e == e && e in s.entries
    ensures !(s.stages[a].r.input && s.entries[e].wants.input) && !(s.stages[a].r.output && s.entries[e].wants.output)
  {
    hide Free, Exists;
    a := step.a;
  }

  // ------------------------------------------------------------------- the event

  predicate Scanning(st: Stage, ep: Ep) {
    (st.Scan? || st.Polled?) && st.ep == ep
  }

  /** An event signalled over an empty ready list is about to be cleared by a scan. */
  ghost predicate EventDue(s: State, ep: Ep) {
    ep in s.signalled && Ready(s, ep) == [] ==> exists a :: 0 <= a < |s.stages| && Scanning(s.stages[a], ep)
  }

  ghost predicate InsertedOk(s: State) {
    forall a, ep :: 0 <= a < |s.stages| && Signalling(s, s.stages[a], ep) ==> Ready(s, ep) != []
  }

  ghost predicate EventsDue(s: State) {
    InsertedOk(s) && forall ep :: EventDue(s, ep)
  }

  lemma {:induction false} GoReady(s: State, a: nat, ep: Ep)
    requires CanGo(s, a)
    ensures var s' := Go(s, a);
            && (Ready(s, ep) != [] && !Scanning(s.stages[a], ep) ==> Ready(s', ep) != [])
            && (Signalling(s', s'.stages[a], ep) ==> Ready(s', ep) != [])
  {
    hide Free, Without;
  }

  /** While an activity is about to signal, nobody takes anything off its ready list. */
  lemma {:induction false} GoInserted(s: State, a: nat)
    requires Exclusive(s) && StagesOk(s) && InsertedOk(s) && CanGo(s, a)
    ensures InsertedOk(Go(s, a))
  {
    var s' := Go(s, a);
    GoMoves(s, a);
    hide CanGo, Go, Free, Ready, StagesOk;
    forall b, ep | 0 <= b < |s'.stages| && Signalling(s', s'.stages[b], ep) ensures Ready(s', ep) != [] {
      GoReady(s, a, ep);
      if b != a {
        OtherSignals(s, a, b, ep);
      }
    }
  }

  lemma {:induction false} ScanHolds(s: State, st: Stage, ep: Ep)
    ensures Scanning(st, ep) ==> Holds(s, st, ReadyLock(ep))
  {
  }

  lemma {:induction false} OtherSignals(s: State, a: nat, b: nat, ep: Ep)
    requires Exclusive(s) && StagesOk(s) && CanGo(s, a) && b < |s.stages| && b != a
    requires Signalling(Go(s, a), s.stages[b], ep)
    ensures Signalling(s, s.stages[b], ep) && !Scanning(s.stages[a], ep)
  {
    GoMoves(s, a);
    hide Go, CanGo;
    assert StageOk(s, s.stages[b]);
    assert Holds(s, s.stages[b], ReadyLock(ep));
    ScanHolds(s, s.stages[a], ep);
  }

  lemma {:induction false} GoDue(s: State, a: nat, ep: Ep)
    requires InsertedOk(s) && EventDue(s, ep) && CanGo(s, a)
    ensures EventDue(Go(s, a), ep)
  {
    var s' := Go(s, a);
    GoMoves(s, a);
    GoScans(s, a, ep);
    hide Go, CanGo, Ready;
    if ep in s'.signalled && Ready(s', ep) == [] {
      if Scanning(s.stages[a], ep) {
        assert Scanning(s'.stages[a], ep);
      } else {
        var b :| 0 <= b < |s.stages| && Scanning(s.stages[b], ep);
        assert s'.stages[b] == s.stages[b];
      }
    }
  }

  /** Only an activity about to signal does so, and a scan ends with the event cleared if
      the ready list is empty. */
  lemma {:induction false} GoScans(s: State, a: nat, ep: Ep)
    requires InsertedOk(s) && CanGo(s, a)
    ensures var s' := Go(s, a);
            ep in s'.signalled && Ready(s', ep) == [] ==>
              if Scanning(s.stages[a], ep) then Scanning(s'.stages[a], ep)
              else ep in s.signalled && Ready(s, ep) == []
  {
    GoReady(s, a, ep);
    hide Free, Without;
  }

  lemma {:induction false} StepDue(s: State, step: Step)
    requires Inv(s) && EventsDue(s) && Enabled(s, step)
    ensures EventsDue(Next(s, step))
  {
    var s' := Next(s, step);
    if step.Proceed? {
      hide CanGo, Go, EventDue, InsertedOk, Exclusive, StagesOk;
      GoInserted(s, step.a);
      forall ep ensures EventDue(s', ep) {
        GoDue(s, step.a, ep);
      }
    } else {
      hide CanGo, Go, Free, Exists, Exclusive, ListsOk, NoneLost, DropsOk, EventsOk;
      OtherDue(s, step);
    }
  }

  lemma {:induction false} OtherDue(s: State, step: Step)
    requires StagesOk(s) && EventsDue(s) && Enabled(s, step) && !step.Proceed?
    ensures EventsDue(Next(s, step))
  {
    var s' := Next(s, step);
    hide CanGo, Go, Free, Exists;
    forall b, ep | 0 <= b < |s'.stages| && Signalling(s', s'.stages[b], ep) ensures Ready(s', ep) != [] {
      assert StageOk(s, s.stages[b]);
      assert s'.stages[b] == s.stages[b];
      assert Signalling(s, s.stages[b], ep);
      assert s'.ready == s.ready;
      assert Ready(s, ep) != [];
      assert Ready(s', ep) == Ready(s, ep);
    }
    forall ep ensures EventDue(s', ep) {
      assert EventDue(s, ep);
      forall b | 0 <= b < |s.stages| && Scanning(s.stages[b], ep) ensures Scanning(s'.stages[b], ep) {
      }
    }
  }

  lemma {:induction false} RunDue(ss: seq<State>, steps: seq<Step>, n: nat)
    requires Run(ss, steps) && n < |ss|
    ensures EventsDue(ss[n])
  {
    if n > 0 {
      RunKeeps(ss, steps, n - 1);
      RunDue(ss, steps, n - 1);
      hide Inv, EventsDue, Enabled, Next;
      StepDue(ss[n - 1], steps[n - 1]);
    }
  }

  /** In every run, while a ready list's lock is free its event is signalled if and only if
      the list is not empty: no waiter sleeps on a ready watch, and none is woken for
      nothing. */
  lemma {:induction false} EventExact(ss: seq<State>, steps: seq<Step>, n: nat, ep: Ep)
    requires Run(ss, steps) && n < |ss| && Free(ss[n], ReadyLock(ep))
    ensures ep in ss[n].signalled <==> Ready(ss[n], ep) != []
  {
    var s := ss[n];
    RunDue(ss, steps, n);
    RunKeeps(ss, steps, n);
    assert EventDue(s, ep);
    if Ready(s, ep) != [] {
      Signalled(s, ep);
    }
    forall a | 0 <= a < |s.stages| ensures !Scanning(s.stages[a], ep) {
      assert !Holds(s, s.stages[a], ReadyLock(ep));
    }
  }

  // ---------------------------------------------------------------------- watches

  predicate SameWatch(x: Entry, y: Entry) {
    x.ep == y.ep && x.key == y.key
  }

  /** One watch at most for a file and descriptor in a poll instance, and each is on the
      pollhead or about to be put there. */
  ghost predicate WatchesOk(s: State) {
    && (forall x, y ::
          x in s.entries && y in s.entries && SameWatch(s.entries[x], s.entries[y]) ==> x == y)
    && forall e :: e in s.entries ==> Known(s, e)
  }

  ghost predicate Known(s: State, e: Eid) {
    e in s.pollers || exists a :: 0 <= a < |s.stages| && s.stages[a] == Added(e)
  }

  lemma {:induction false} StepKnown(s: State, step: Step, e: Eid)
    requires Enabled(s, step) && Known(s, e)
    ensures Known(Next(s, step), e)
  {
    var s' := Next(s, step);
    hide Free, Exists;
    if e !in s'.pollers {
      assert e !in s.pollers;
      var a :| 0 <= a < |s.stages| && s.stages[a] == Added(e);
      assert s'.stages[a] == Added(e);
    }
  }

  lemma {:induction false} RunWatches(ss: seq<State>, steps: seq<Step>, n: nat)
    requires Run(ss, steps) && n < |ss|
    ensures WatchesOk(ss[n])
  {
    if n > 0 {
      RunWatches(ss, steps, n - 1);
      StepWatches(ss[n - 1], steps[n - 1]);
    }
  }

  lemma {:induction false} StepWatches(s: State, step: Step)
    requires Enabled(s, step) && WatchesOk(s)
    ensures WatchesOk(Next(s, step))
  {
    var s' := Next(s, step);
    assert step.Add? && !Exists(s, step.entry) ==> s'.stages[step.a] == Added(step.e);
    assert s'.entries == s.entries || (step.Add? && s'.entries == s.entries[step.e := step.entry]);
    forall e | e in s'.entries ensures Known(s', e) {
      if e in s.entries {
        StepKnown(s, step, e);
      }
    }
    hide Free, Known, CanGo, Go;
  }

  /** A watch is refused exactly when there is one for the same file and descriptor. */
  lemma {:induction false} AddExact(s: State, a: nat, e: Eid, entry: Entry)
    requires Enabled(s, Add(a, e, entry))
    ensures var s' := Next(s, Add(a, e, entry));
            if exists x :: x in s.entries && SameWatch(s.entries[x], entry) then s' == s
            else s'.entries == s.entries[e := entry] && s'.stages == s.stages[a := Added(e)]
  {
    hide Free;
    assert forall x :: x in s.entries ==> (SameWatch(s.entries[x], entry) <==>
        s.entries[x].ep == entry.ep && s.entries[x].key == entry.key);
  }
}
