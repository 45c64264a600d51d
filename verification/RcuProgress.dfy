/** Callbacks are not forgotten: what is promoted is retired, and what is retired is run. */
module RcuProgress {
  import opened Rcu

  /** CPU `k` has cleared its bit in one of the steps `at` up to `last`. */
  ghost predicate Passes(steps: seq<Step>, at: nat, last: nat, k: nat)
    requires last <= |steps|
  {
    exists q :: at <= q < last && steps[q] == DoClear(k)
  }

  /** The callback is in its CPU's current batch with the CPUs that passed since noted, or
      is past or run. */
  ghost predicate OnItsWay(s: State, h: History, steps: seq<Step>, at: nat, last: nat, i: nat, x: Cb)
    requires Sizes(s, h) && i < |s.cpus| && last <= |steps|
  {
    || x in s.cpus[i].past || x in h.ran[i]
    || (x in s.cpus[i].current && h.owed[i] <= All(|s.cpus|)
        && forall k :: Passes(steps, at, last, k) ==> k in h.since[i])
  }

  lemma {:induction false} Promoted(s: State, h: History, steps: seq<Step>, at: nat, i: nat, x: Cb)
    requires Inv(s, h) && at < |steps| && steps[at] == DoPromote(i) && Enabled(s, h, steps[at])
    requires s.cpus[i].current == [] && x in s.cpus[i].next
    ensures var s', h' := Next(s, h, steps[at]), Record(s, h, steps[at]);
            Sizes(s', h') && i < |s'.cpus| && OnItsWay(s', h', steps, at + 1, at + 1, i, x)
  {
    hide CpuOk;
  }

  /** The batch is not disturbed by what other CPUs do. */
  lemma {:induction false} StaysOnItsWay(s: State, h: History, steps: seq<Step>, at: nat, last: nat, i: nat, x: Cb)
    requires Inv(s, h) && at <= last < |steps| && i < |s.cpus| && Enabled(s, h, steps[last])
    requires OnItsWay(s, h, steps, at, last, i, x)
    ensures var s', h' := Next(s, h, steps[last]), Record(s, h, steps[last]);
            Sizes(s', h') && i < |s'.cpus| && OnItsWay(s', h', steps, at, last + 1, i, x)
  {
    hide CpuOk, All, Served, GlobalOk;
    var s', h' := Next(s, h, steps[last]), Record(s, h, steps[last]);
    if x in s.cpus[i].past && steps[last] == DoRun(i) {
      assert x == s.cpus[i].past[0] || x in s.cpus[i].past[1..];
    }
    if x !in s.cpus[i].past && x !in h.ran[i] && x in s'.cpus[i].current {
      assert steps[last] == DoPromote(i) ==> !Promotes(s, i);
      forall k | Passes(steps, at, last + 1, k) ensures k in h'.since[i] {
        var q :| at <= q < last + 1 && steps[q] == DoClear(k);
        assert q < last ==> Passes(steps, at, last, k);
      }
    }
  }

  /** Once every CPU has gone through a quiescent point since the promotion, the next pass of
      the callback's own CPU retires it. */
  lemma {:induction false} Ripens(s: State, h: History, steps: seq<Step>, at: nat, last: nat, i: nat, x: Cb)
    requires Inv(s, h) && at <= last < |steps| && i < |s.cpus|
    requires steps[last] == DoRipen(i) && Enabled(s, h, steps[last])
    requires OnItsWay(s, h, steps, at, last, i, x) && forall k :: 0 <= k < |s.cpus| ==> Passes(steps, at, last, k)
    ensures var s', h' := Next(s, h, steps[last]), Record(s, h, steps[last]);
            i < |s'.cpus| && i < |h'.ran| && (x in s'.cpus[i].past || x in h'.ran[i])
  {
    if x in s.cpus[i].current && x !in s.cpus[i].past && x !in h.ran[i] {
      assert h.owed[i] <= h.since[i];
      RipeExactly(s, h, i);
    }
    hide Inv, Passes;
  }

  lemma {:induction false} StillOnItsWay(n: nat, ss: seq<State>, hs: seq<History>, steps: seq<Step>,
                                         at: nat, last: nat, i: nat, x: Cb)
    requires Run(n, ss, hs, steps) && at < last <= |steps| && i < n
    requires steps[at] == DoPromote(i)
    requires i < |ss[at].cpus| && ss[at].cpus[i].current == [] && x in ss[at].cpus[i].next
    ensures Sizes(ss[last], hs[last]) && i < |ss[last].cpus| && OnItsWay(ss[last], hs[last], steps, at + 1, last, i, x)
    decreases last
  {
    hide Inv, OnItsWay, Next, Record, Enabled;
    var j := last - 1;
    RunInv(n, ss, hs, steps, j);
    assert Takes(ss[j], hs[j], steps[j], ss[j + 1], hs[j + 1]);
    if j == at {
      Promoted(ss[j], hs[j], steps, at, i, x);
    } else {
      StillOnItsWay(n, ss, hs, steps, at, j, i, x);
      StaysOnItsWay(ss[j], hs[j], steps, at + 1, j, i, x);
    }
  }

  /** In every run, a callback promoted at one step is retired, or has been run, once every
      CPU has gone through a quiescent point since and its own CPU has looked again. */
  lemma {:induction false} Retires(n: nat, ss: seq<State>, hs: seq<History>, steps: seq<Step>,
                                   at: nat, last: nat, i: nat, x: Cb)
    requires Run(n, ss, hs, steps) && at < last < |steps| && i < n
    requires steps[at] == DoPromote(i) && steps[last] == DoRipen(i)
    requires i < |ss[at].cpus| && ss[at].cpus[i].current == [] && x in ss[at].cpus[i].next
    requires forall k :: 0 <= k < n ==> exists q :: at < q < last && steps[q] == DoClear(k)
    ensures i < |ss[last + 1].cpus| && i < |hs[last + 1].ran|
    ensures x in ss[last + 1].cpus[i].past || x in hs[last + 1].ran[i]
  {
    StillOnItsWay(n, ss, hs, steps, at, last, i, x);
    RunInv(n, ss, hs, steps, last);
    var next := at + 1;
    forall k | 0 <= k < n ensures Passes(steps, next, last, k) {
      var q :| at < q < last && steps[q] == DoClear(k);
    }
    hide Inv, OnItsWay, Next, Record, Enabled, Passes;
    assert Takes(ss[last], hs[last], steps[last], ss[last + 1], hs[last + 1]);
    Ripens(ss[last], hs[last], steps, at + 1, last, i, x);
  }

  /** A pass of a CPU with no current batch promotes everything registered on it. */
  lemma {:induction false} PromotesAll(s: State, h: History, i: nat)
    requires Inv(s, h) && Enabled(s, h, DoPromote(i))
    ensures var c, c' := s.cpus[i], Next(s, h, DoPromote(i)).cpus[i];
            && c'.past == c.past && c'.stage == Outside
            && (if c.current == [] then c'.current == c.next && c'.next == []
                else c'.current == c.current && c'.next == c.next)
  {
  }
}
