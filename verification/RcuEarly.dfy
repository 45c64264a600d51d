/**
  Two runs of three CPUs from boot. After the first the batch of CPU 1 is retired although
  CPU 0 has gone through no quiescent point since its callback was registered. After the
  second the assertion made at a promotion does not hold.
 */
module RcuEarly {
  import opened Rcu

  const EMPTY := Cpu(0, [], [], [], Outside)

  // CPU 0 promotes callback 10 between generations and goes through the new one.
  const S0 := State({}, 0, 0, [EMPTY, EMPTY, EMPTY])
  const S1 := S0.(cpus := [Cpu(0, [10], [], [], Outside), EMPTY, EMPTY])
  const S2 := S0.(cpus := [Cpu(0, [10], [], [], Cleared), EMPTY, EMPTY])
  const S3 := S0.(cpus := [Cpu(0, [10], [], [], Ripened), EMPTY, EMPTY])
  const S4 := State({0, 1, 2}, 1, 1, [Cpu(1, [], [10], [], Outside), EMPTY, EMPTY])
  const S5 := State({1, 2}, 1, 1, [Cpu(1, [], [10], [], Cleared), EMPTY, EMPTY])
  // Callback 11 is registered on CPU 1, which is about to promote it.
  const S6 := S5.(cpus := [Cpu(1, [], [10], [], Cleared), Cpu(0, [11], [], [], Outside), EMPTY])
  const S7 := State({2}, 1, 1, [Cpu(1, [], [10], [], Cleared), Cpu(0, [11], [], [], Cleared), EMPTY])
  const S8 := S7.(cpus := [Cpu(1, [], [10], [], Cleared), Cpu(0, [11], [], [], Ripened), EMPTY])

  const NONE: seq<set<nat>> := [{}, {}, {}]
  const H0 := History([[], [], []], [[], [], []], NONE, NONE, map[], {})
  const H1 := H0.(called := [[10], [], []], passed := map[10 := {}])
  const H2 := H1.(since := [{0}, {0}, {0}], passed := map[10 := {0}])
  const H4 := H2.(owed := [{0, 1, 2}, {}, {}], since := [{}, {0}, {0}])
  const H5 := H4.(since := [{0}, {0}, {0}])
  const H6 := H5.(called := [[10], [11], []], passed := map[10 := {0}, 11 := {}])
  const H7 := H6.(since := [{0, 1}, {0, 1}, {0, 1}], passed := map[10 := {0, 1}, 11 := {1}])

  lemma {:induction false} AllThree()
    ensures All(3) == {0, 1, 2}
  {
  }

  lemma {:induction false} FirstCall()
    ensures S0 == Boot(3) && H0 == NoHistory(3) && Takes(S0, H0, DoCall(0, 10), S1, H1)
  {
    var none: seq<Cb> := [];
    assert none + [10] == [10];
    assert Next(S0, H0, DoCall(0, 10)).cpus == S1.cpus;
    assert Record(S0, H0, DoCall(0, 10)).called == H1.called;
  }

  lemma {:induction false} FirstClear()
    ensures Takes(S1, H1, DoClear(0), S2, H2) && Takes(S2, H2, DoRipen(0), S3, H2)
  {
    assert {} + {0} == {0};
    assert Record(S1, H1, DoClear(0)).since == H2.since;
    assert Record(S1, H1, DoClear(0)).passed == H2.passed;
    assert Next(S1, H1, DoClear(0)).cpus == S2.cpus;
  }

  lemma {:induction false} FirstPromote()
    ensures Takes(S3, H2, DoPromote(0), S4, H4)
  {
    AllThree();
    hide All;
    assert Served(S3, H2, 0, 10);
  }

  lemma {:induction false} SecondClear()
    ensures Takes(S4, H4, DoClear(0), S5, H5)
  {
    assert {0, 1, 2} - {0} == {1, 2} && 1 in {1, 2};
    assert {} + {0} == {0} && {0} + {0} == {0};
    assert Record(S4, H4, DoClear(0)).since == H5.since;
    assert Record(S4, H4, DoClear(0)).passed == H5.passed;
  }

  lemma {:induction false} SecondCall()
    ensures Takes(S5, H5, DoCall(1, 11), S6, H6)
  {
    var none: seq<Cb> := [];
    assert none + [11] == [11];
    assert Next(S5, H5, DoCall(1, 11)).cpus == S6.cpus;
    assert Record(S5, H5, DoCall(1, 11)).called == H6.called;
    assert Record(S5, H5, DoCall(1, 11)).passed == H6.passed;
  }

  lemma {:induction false} ThirdClear()
    ensures Takes(S6, H6, DoClear(1), S7, H7) && Takes(S7, H7, DoRipen(1), S8, H7)
  {
    assert {1, 2} - {1} == {2} && 2 in {2};
    assert {} + {1} == {1} && {0} + {1} == {0, 1};
    assert Record(S6, H6, DoClear(1)).since == H7.since;
    assert Record(S6, H6, DoClear(1)).passed == H7.passed;
  }

  /** The state before the promotion is reached. */
  lemma {:induction false} Reached()
    ensures Leads(Boot(3), NoHistory(3), S8, H7)
  {
    FirstCall();
    FirstClear();
    FirstPromote();
    SecondClear();
    SecondCall();
    ThirdClear();
    hide Takes, Leads;
    LeadsHere(S0, H0);
    LeadsTake(S0, H0, S0, H0, DoCall(0, 10), S1, H1);
    LeadsTake(S0, H0, S1, H1, DoClear(0), S2, H2);
    LeadsTake(S0, H0, S2, H2, DoRipen(0), S3, H2);
    LeadsTake(S0, H0, S3, H2, DoPromote(0), S4, H4);
    LeadsTake(S0, H0, S4, H4, DoClear(0), S5, H5);
    LeadsTake(S0, H0, S5, H5, DoCall(1, 11), S6, H6);
    LeadsTake(S0, H0, S6, H6, DoClear(1), S7, H7);
    LeadsTake(S0, H0, S7, H7, DoRipen(1), S8, H7);
  }

  lemma {:induction false} Invariant()
    ensures Inv(S8, H7)
  {
    Reached();
    var ss, hs, steps :|
      Path(ss, hs, steps) && ss[0] == Boot(3) && hs[0] == NoHistory(3) && ss[|steps|] == S8 && hs[|steps|] == H7;
    RunInv(3, ss, hs, steps, |steps|);
  }

  /** Callback 11 is retired on CPU 1 without CPU 0 having gone through a quiescent point
      since it was registered. */
  lemma {:induction false} Retired() returns (s': State, h': History)
    ensures Leads(Boot(3), NoHistory(3), S8, H7) && Leads(S8, H7, s', h')
    ensures Sizes(s', h') && 1 < |s'.cpus| && 11 in s'.cpus[1].past && 11 in h'.passed && 0 !in h'.passed[11]
  {
    Reached();
    Invariant();
    hide Leads, Inv;
    assert 2 in S8.mask;
    s', h' := EarlyRetires(S8, H7, 1, 11, 0);
  }

  // CPUs 1 and 2 both have a batch to promote during the generation of callback 10.
  const A5 := S4.(cpus := [Cpu(1, [], [10], [], Outside), Cpu(0, [11], [], [], Outside), EMPTY])
  const A6 := State({0, 2}, 1, 1, [Cpu(1, [], [10], [], Outside), Cpu(0, [11], [], [], Cleared), EMPTY])
  const A7 := A6.(cpus := [Cpu(1, [], [10], [], Outside), Cpu(0, [11], [], [], Ripened), EMPTY])
  const A8 := State({0, 2}, 1, 3, [Cpu(1, [], [10], [], Outside), Cpu(2, [], [11], [], Outside), EMPTY])
  const A9 := A8.(cpus := [Cpu(1, [], [10], [], Outside), Cpu(2, [], [11], [], Outside), Cpu(0, [12], [], [], Outside)])
  const A10 := State({0}, 1, 3,
                     [Cpu(1, [], [10], [], Outside), Cpu(2, [], [11], [], Outside), Cpu(0, [12], [], [], Cleared)])
  const A11 := A10.(cpus := [Cpu(1, [], [10], [], Outside), Cpu(2, [], [11], [], Outside),
                             Cpu(0, [12], [], [], Ripened)])

  const B5 := H4.(called := [[10], [11], []], passed := map[10 := {0}, 11 := {}])
  const B6 := B5.(since := [{1}, {0, 1}, {0, 1}], passed := map[10 := {0, 1}, 11 := {1}])
  const B8 := B6.(owed := [{0, 1, 2}, {0, 2}, {}], since := [{1}, {}, {0, 1}])
  const B9 := B8.(called := [[10], [11], [12]], passed := map[10 := {0, 1}, 11 := {1}, 12 := {}])
  const B10 := B9.(since := [{1, 2}, {2}, {0, 1, 2}], passed := map[10 := {0, 1, 2}, 11 := {1, 2}, 12 := {2}])

  lemma {:induction false} BusyCall()
    ensures Takes(S4, H4, DoCall(1, 11), A5, B5)
  {
    var none: seq<Cb> := [];
    assert none + [11] == [11];
    assert Next(S4, H4, DoCall(1, 11)).cpus == A5.cpus;
    assert Record(S4, H4, DoCall(1, 11)).called == B5.called;
    assert Record(S4, H4, DoCall(1, 11)).passed == B5.passed;
  }

  lemma {:induction false} BusyClear()
    ensures Takes(A5, B5, DoClear(1), A6, B6) && Takes(A6, B6, DoRipen(1), A7, B6)
  {
    assert {0, 1, 2} - {1} == {0, 2} && 2 in {0, 2};
    assert {} + {1} == {1} && {0} + {1} == {0, 1};
    assert Record(A5, B5, DoClear(1)).since == B6.since;
    assert Record(A5, B5, DoClear(1)).passed == B6.passed;
  }

  lemma {:induction false} BusyPromote()
    ensures Takes(A7, B6, DoPromote(1), A8, B8)
  {
    AllThree();
    hide All;
    assert 2 in A7.mask;
    assert Served(A7, B6, 1, 11);
  }

  lemma {:induction false} OtherCall()
    ensures Takes(A8, B8, DoCall(2, 12), A9, B9)
  {
    var none: seq<Cb> := [];
    assert none + [12] == [12];
    assert Next(A8, B8, DoCall(2, 12)).cpus == A9.cpus;
    assert Record(A8, B8, DoCall(2, 12)).called == B9.called;
    assert Record(A8, B8, DoCall(2, 12)).passed == B9.passed;
  }

  lemma {:induction false} OtherClear()
    ensures Takes(A9, B9, DoClear(2), A10, B10) && Takes(A10, B10, DoRipen(2), A11, B10)
  {
    assert {0, 2} - {2} == {0} && 0 in {0};
    assert {} + {2} == {2} && {1} + {2} == {1, 2} && {0, 1} + {2} == {0, 1, 2};
    assert Record(A9, B9, DoClear(2)).since == B10.since;
    assert Record(A9, B9, DoClear(2)).passed == B10.passed;
  }

  /** CPU 2 is about to promote its batch, and the assertion does not hold. */
  lemma {:induction false} AssertionFails()
    ensures Leads(Boot(3), NoHistory(3), A11, B10)
    ensures A11.cpus[2].stage == Ripened && Promotes(A11, 2) && !AssertOk(A11, 2)
  {
    FirstCall();
    FirstClear();
    FirstPromote();
    BusyCall();
    BusyClear();
    BusyPromote();
    OtherCall();
    OtherClear();
    hide Takes, Leads;
    LeadsHere(S0, H0);
    LeadsTake(S0, H0, S0, H0, DoCall(0, 10), S1, H1);
    LeadsTake(S0, H0, S1, H1, DoClear(0), S2, H2);
    LeadsTake(S0, H0, S2, H2, DoRipen(0), S3, H2);
    LeadsTake(S0, H0, S3, H2, DoPromote(0), S4, H4);
    LeadsTake(S0, H0, S4, H4, DoCall(1, 11), A5, B5);
    LeadsTake(S0, H0, A5, B5, DoClear(1), A6, B6);
    LeadsTake(S0, H0, A6, B6, DoRipen(1), A7, B6);
    LeadsTake(S0, H0, A7, B6, DoPromote(1), A8, B8);
    LeadsTake(S0, H0, A8, B8, DoCall(2, 12), A9, B9);
    LeadsTake(S0, H0, A9, B9, DoClear(2), A10, B10);
    LeadsTake(S0, H0, A10, B10, DoRipen(2), A11, B10);
    assert 0 in A11.mask;
  }
}
