/** What every interleaving of the poll protocol keeps. */
module EpollSafety {
  import opened Queues
  import opened Epoll

  // --------------------------------------------------------------- one activity moves

  /** Watches are only added, and only activity `a` changes its stage. */
  ghost predicate Moves(s: State, s': State, a: nat, st: Stage) {
    && a < |s.stages| && s'.stages == s.stages[a := st]
    && (forall e :: e in s.entries ==> e in s'.entries && s'.entries[e] == s.entries[e])
    && (forall e :: e in s.pollers ==> e in s'.pollers)
  }

  lemma {:induction false} SameHolds(s: State, s': State, st: Stage, l: Lock)
    requires StageOk(s, st) && forall e :: e in s.entries ==> e in s'.entries && s'.entries[e] == s.entries[e]
    ensures Holds(s', st, l) == Holds(s, st, l)
  {
  }

  lemma {:induction false} MoveExclusive(s: State, s': State, a: nat, st: Stage)
    requires Exclusive(s) && StagesOk(s) && Moves(s, s', a, st)
    requires forall l :: Holds(s', st, l) ==> Holds(s, s.stages[a], l) || Free(s, l)
    ensures Exclusive(s')
  {
    forall b, c, l | 0 <= b < |s'.stages| && 0 <= c < |s'.stages|
                     && Holds(s', s'.stages[b], l) && Holds(s', s'.stages[c], l)
      ensures b == c
    {
      assert StageOk(s, s.stages[b]) && StageOk(s, s.stages[c]);
      SameHolds(s, s', s.stages[b], l);
      SameHolds(s, s', s.stages[c], l);
      hide StageOk, Holds;
    }
  }

  /** Another activity's stage: the ready list it scans has not changed. */
  lemma {:induction false} OtherStage(s: State, s': State, a: nat, st: Stage, b: nat)
    requires Moves(s, s', a, st) && b < |s.stages| && b != a && StageOk(s, s.stages[b])
    requires s.stages[b].Added? ==> s.stages[b].e !in s'.pollers
    requires s.stages[b].Scan? || s.stages[b].Polled? ==> Ready(s', s.stages[b].ep) == Ready(s, s.stages[b].ep)
    ensures StageOk(s', s'.stages[b])
  {
  }

  /** Stages when the pollers and the ready lists stay as they are. */
  lemma {:induction false} QuietStages(s: State, s': State, a: nat, st: Stage)
    requires Moves(s, s', a, st) && StagesOk(s) && s'.pollers == s.pollers && s'.ready == s.ready && StageOk(s', st)
    ensures StagesOk(s')
  {
    forall b | 0 <= b < |s'.stages| ensures StageOk(s', s'.stages[b]) {
      if b != a {
        assert StageOk(s, s.stages[b]);
        OtherStage(s, s', a, st, b);
      }
    }
  }

  /** Stages when `ep`'s ready list changes under its lock. */
  lemma {:induction false} ReadyStages(s: State, s': State, a: nat, st: Stage, ep: Ep)
    requires Moves(s, s', a, st) && StagesOk(s) && Exclusive(s) && s'.pollers == s.pollers && StageOk(s', st)
    requires Holds(s, s.stages[a], ReadyLock(ep)) || Free(s, ReadyLock(ep))
    requires forall x :: x != ep ==> Ready(s', x) == Ready(s, x)
    ensures StagesOk(s')
  {
    forall b | 0 <= b < |s'.stages| ensures StageOk(s', s'.stages[b]) {
      if b != a {
        assert StageOk(s, s.stages[b]);
        assert !Holds(s, s.stages[b], ReadyLock(ep));
        OtherStage(s, s', a, st, b);
      }
    }
  }

  lemma {:induction false} RegisterStages(s: State, s': State, a: nat, e: Eid)
    requires Moves(s, s', a, Registered(e)) && StagesOk(s) && Exclusive(s) && s.stages[a] == Added(e)
    requires s'.ready == s.ready
    requires s'.pollers == [e] + s.pollers
    ensures StagesOk(s')
  {
    assert StageOk(s, s.stages[a]);
    forall b | 0 <= b < |s'.stages| ensures StageOk(s', s'.stages[b]) {
      if b != a {
        assert StageOk(s, s.stages[b]);
        assert Holds(s, s.stages[a], Mutex(s.entries[e].ep));
        assert !Holds(s, s.stages[b], Mutex(s.entries[e].ep));
        OtherStage(s, s', a, Registered(e), b);
      }
    }
  }

  // -------------------------------------------------------------------- in flight

  lemma {:induction false} StillInFlight(s: State, s': State, a: nat, st: Stage, e: Eid)
    requires Moves(s, s', a, st) && e in s.entries && InFlight(s, e)
    requires Coming(s, s.stages[a], e) ==> Coming(s', st, e)
    ensures InFlight(s', e)
  {
    var b :| 0 <= b < |s.stages| && Coming(s, s.stages[b], e);
    assert Coming(s', s'.stages[b], e);
  }

  lemma {:induction false} NowInFlight(s: State, a: nat, e: Eid)
    requires a < |s.stages| && e in s.entries && Coming(s, s.stages[a], e)
    ensures InFlight(s, e)
  {
  }

  /** Nothing is lost by a move that keeps what was on its way on its way. */
  lemma {:induction false} MoveNotLost(s: State, s': State, a: nat, st: Stage, e: Eid)
    requires Moves(s, s', a, st) && e in s.entries && NotLost(s, e)
    requires s'.unread == s.unread
    requires Coming(s, s.stages[a], e) ==> Coming(s', st, e) || e in Ready(s', s.entries[e].ep) || !Matches(s, e)
    requires e in Ready(s, s.entries[e].ep) ==> e in Ready(s', s.entries[e].ep)
    ensures NotLost(s', e)
  {
    if Matches(s, e) && InFlight(s, e) && (Coming(s, s.stages[a], e) ==> Coming(s', st, e)) {
      StillInFlight(s, s', a, st, e);
    }
  }

  /** Nor is a watch some other waiter is about to drop. */
  lemma {:induction false} MoveDrop(s: State, s': State, a: nat, st: Stage, b: nat)
    requires Moves(s, s', a, st) && b < |s.stages| && b != a && DropOk(s, s.stages[b]) && StageOk(s, s.stages[b])
    requires s'.unread == s.unread
    requires s.stages[b].Polled? ==>
               Matches(s, s.stages[b].e) && Coming(s, s.stages[a], s.stages[b].e) ==> Coming(s', st, s.stages[b].e)
    ensures DropOk(s', s'.stages[b])
  {
    if s.stages[b].Polled? && Matches(s, s.stages[b].e) && Wanted(s, s.stages[b].e, s.stages[b].r) == NOTHING {
      StillInFlight(s, s', a, st, s.stages[b].e);
    }
  }

  // ---------------------------------------------------------------------- events

  lemma {:induction false} MoveEvent(s: State, s': State, a: nat, st: Stage, ep: Ep)
    requires Moves(s, s', a, st) && EventOk(s, ep)
    requires Ready(s', ep) != [] && Ready(s, ep) == [] ==> Signalling(s', st, ep)
    requires ep in s.signalled ==> ep in s'.signalled || Ready(s', ep) == []
    requires Signalling(s, s.stages[a], ep) ==> Signalling(s', st, ep) || ep in s'.signalled
    ensures EventOk(s', ep)
  {
    if Ready(s', ep) != [] && Ready(s, ep) == [] {
      assert Signalling(s', s'.stages[a], ep);
    } else if Ready(s', ep) != [] && ep !in s'.signalled {
      var b :| 0 <= b < |s.stages| && Signalling(s, s.stages[b], ep);
      assert Signalling(s', s'.stages[b], ep);
    }
  }

  // ------------------------------------------------------------------- Exclusive

  lemma {:induction false} GoExclusive(s: State, a: nat)
    requires Exclusive(s) && StagesOk(s) && CanGo(s, a)
    ensures Exclusive(Go(s, a))
  {
    var s' := Go(s, a);
    assert StageOk(s, s.stages[a]);
    GoMoves(s, a);
    MoveExclusive(s, s', a, s'.stages[a]);
  }

  lemma {:induction false} GoMoves(s: State, a: nat)
    requires CanGo(s, a)
    ensures Moves(s, Go(s, a), a, Go(s, a).stages[a])
  {
  }

  // ----------------------------------------------------------------------- the lists

  lemma {:induction false} InsertReady(s: State, e: Eid, ep: Ep)
    requires e in s.entries && e in s.pollers && ReadyOk(s, ep)
    ensures ReadyOk(Insert(s, e), ep)
    ensures forall x :: x in Ready(Insert(s, e), ep) <==> x in Ready(s, ep) || (x == e && ep == s.entries[e].ep)
  {
    if ep == s.entries[e].ep && e !in Ready(s, ep) {
      WithFirst(e, Ready(s, ep));
    }
  }

  lemma {:induction false} InsertLists(s: State, e: Eid)
    requires ListsOk(s) && e in s.entries && e in s.pollers
    ensures ListsOk(Insert(s, e))
  {
    forall ep ensures ReadyOk(Insert(s, e), ep) {
      assert ReadyOk(s, ep);
      InsertReady(s, e, ep);
    }
  }

  lemma {:induction false} DropLists(s: State, e: Eid, ep: Ep)
    requires ListsOk(s)
    ensures ListsOk(s.(ready := s.ready[ep := Without(Ready(s, ep), e)]))
  {
    var s' := s.(ready := s.ready[ep := Without(Ready(s, ep), e)]);
    forall x ensures ReadyOk(s', x) {
      assert ReadyOk(s, x);
      WithoutDistinct(Ready(s, x), e);
    }
  }

  lemma {:induction false} RegisterLists(s: State, e: Eid)
    requires ListsOk(s) && e in s.entries && e !in s.pollers
    ensures ListsOk(s.(pollers := [e] + s.pollers))
  {
    var s' := s.(pollers := [e] + s.pollers);
    WithFirst(e, s.pollers);
    forall x ensures ReadyOk(s', x) {
      assert ReadyOk(s, x);
    }
  }

  /** Lists that stay the same, with the watches only added to. */
  lemma {:induction false} SameLists(s: State, s': State)
    requires ListsOk(s) && s'.pollers == s.pollers && s'.ready == s.ready
    requires forall e :: e in s.entries ==> e in s'.entries && s'.entries[e] == s.entries[e]
    ensures ListsOk(s')
  {
    forall x ensures ReadyOk(s', x) {
      assert ReadyOk(s, x);
    }
  }

  lemma {:induction false} GoLists(s: State, a: nat)
    requires ListsOk(s) && StagesOk(s) && CanGo(s, a)
    ensures ListsOk(Go(s, a))
  {
    var s' := Go(s, a);
    assert StageOk(s, s.stages[a]);
    hide ListsOk, StagesOk, Free;
    match s.stages[a]
    case Walk(rest) =>
      if rest != [] && s.entries[rest[0]].wants.input {
        InsertLists(s, rest[0]);
        SameLists(Insert(s, rest[0]), s');
      } else {
        SameLists(s, s');
      }
    case Added(e) =>
      RegisterLists(s, e);
      SameLists(s.(pollers := [e] + s.pollers), s');
    case Matched(e) =>
      InsertLists(s, e);
      SameLists(Insert(s, e), s');
    case Polled(ep, max, e, r, rest, reports) =>
      if Wanted(s, e, r) == NOTHING {
        DropLists(s, e, ep);
        SameLists(s.(ready := s.ready[ep := Without(Ready(s, ep), e)]), s');
      } else {
        SameLists(s, s');
      }
    case _ => SameLists(s, s');
  }

  // ---------------------------------------------------------------------- the stages

  lemma {:induction false} ReportOne(s: State, reports: seq<Report>, e: Eid, r: Mask)
    requires ReportsOk(s, reports) && e in s.entries && Wanted(s, e, r) != NOTHING
    ensures ReportsOk(s, reports + [Report(e, Wanted(s, e, r))])
    ensures Names(reports + [Report(e, Wanted(s, e, r))]) == Names(reports) + [e]
  {
  }

  /** The watch a scan drops is the one it stands at. */
  lemma {:induction false} DropOne(q: seq<Eid>, kept: seq<Eid>, e: Eid, rest: seq<Eid>)
    requires Distinct(q) && q == kept + [e] + rest
    ensures Without(q, e) == kept + rest
  {
    assert q[|kept|] == e && q[..|kept|] == kept && q[|kept| + 1..] == rest;
    WithoutAt(q, |kept|);
  }

  lemma {:induction false} GoStage(s: State, a: nat)
    requires ListsOk(s) && StagesOk(s) && CanGo(s, a)
    ensures StageOk(Go(s, a), Go(s, a).stages[a])
  {
    assert StageOk(s, s.stages[a]);
    match s.stages[a]
    case Scan(ep, max, rest, reports) =>
      assert ReadyOk(s, ep);
      if rest != [] && |reports| < max {
        assert rest == [rest[0]] + rest[1..];
        assert rest[0] in Ready(s, ep);
      }
    case Polled(ep, max, e, r, rest, reports) =>
      assert ReadyOk(s, ep);
      if Wanted(s, e, r) != NOTHING {
        ReportOne(s, reports, e, r);
      } else {
        DropOne(Ready(s, ep), Names(reports), e, rest);
      }
    case _ =>
  }

  lemma {:induction false} GoStages(s: State, a: nat)
    requires Exclusive(s) && ListsOk(s) && StagesOk(s) && CanGo(s, a)
    ensures StagesOk(Go(s, a))
  {
    hide ListsOk, StagesOk, StageOk, Moves, Exclusive, Free;
    GoMoves(s, a);
    GoStage(s, a);
    var s' := Go(s, a);
    var st := s'.stages[a];
    match s.stages[a]
    case Walk(rest) =>
      if rest != [] && s.entries[rest[0]].wants.input {
        ReadyStages(s, s', a, st, s.entries[rest[0]].ep);
      } else {
        QuietStages(s, s', a, st);
      }
    case Added(e) => RegisterStages(s, s', a, e);
    case Matched(e) => ReadyStages(s, s', a, st, s.entries[e].ep);
    case Polled(ep, max, e, r, rest, reports) => ReadyStages(s, s', a, st, ep);
    case _ => QuietStages(s, s', a, st);
  }

  // ----------------------------------------------------------------------- nothing lost

  lemma {:induction false} GoNotLost(s: State, a: nat, e: Eid)
    requires ListsOk(s) && StagesOk(s) && DropsOk(s) && CanGo(s, a)
    requires e in s.entries && e in s.pollers && NotLost(s, e)
    ensures NotLost(Go(s, a), e)
  {
    var s' := Go(s, a);
    GoMoves(s, a);
    assert StageOk(s, s.stages[a]) && DropOk(s, s.stages[a]);
    hide ListsOk, StagesOk, DropsOk, Free, Moves, InFlight;
    if s.stages[a].Polled? && s.stages[a].e == e && Wanted(s, e, s.stages[a].r) == NOTHING {
      if Matches(s, e) {
        StillInFlight(s, s', a, s'.stages[a], e);
      }
    } else {
      MoveNotLost(s, s', a, s'.stages[a], e);
    }
  }

  lemma {:induction false} GoNoneLost(s: State, a: nat)
    requires ListsOk(s) && StagesOk(s) && DropsOk(s) && NoneLost(s) && CanGo(s, a)
    ensures NoneLost(Go(s, a))
  {
    var s' := Go(s, a);
    forall e | e in s'.pollers && e in s'.entries ensures NotLost(s', e) {
      GoPollers(s, a, e);
      if e in s.pollers {
        GoNotLost(s, a, e);
      } else {
        NowInFlight(s', a, e);
      }
    }
  }

  lemma {:induction false} GoPollers(s: State, a: nat, e: Eid)
    requires CanGo(s, a) && e in Go(s, a).pollers
    ensures Go(s, a).entries == s.entries && (e in s.pollers || Go(s, a).stages[a] == Registered(e))
  {
  }

  // ------------------------------------------------------------------------- drops

  lemma {:induction false} GoDrop(s: State, a: nat, b: nat)
    requires Exclusive(s) && ListsOk(s) && StagesOk(s) && DropsOk(s) && CanGo(s, a) && b < |s.stages|
    ensures DropOk(Go(s, a), Go(s, a).stages[b])
  {
    var s' := Go(s, a);
    GoMoves(s, a);
    assert StageOk(s, s.stages[a]) && StageOk(s, s.stages[b]) && DropOk(s, s.stages[b]);
    if b != a {
      if s.stages[b].Polled? {
        var e, ep := s.stages[b].e, s.stages[b].ep;
        assert ReadyOk(s, ep) && e in Ready(s, ep);
        assert Holds(s, s.stages[b], ReadyLock(ep)) && !Holds(s, s.stages[a], ReadyLock(ep));
        assert !Free(s, ReadyLock(ep));
      }
      hide ListsOk, StagesOk, DropsOk, Free, Moves, InFlight, Exclusive;
      MoveDrop(s, s', a, s'.stages[a], b);
    }
  }

  // ------------------------------------------------------------------------- events

  lemma {:induction false} GoEvent(s: State, a: nat, ep: Ep)
    requires Exclusive(s) && StagesOk(s) && EventsOk(s) && CanGo(s, a)
    ensures EventOk(Go(s, a), ep)
  {
    var s' := Go(s, a);
    GoMoves(s, a);
    assert StageOk(s, s.stages[a]) && EventOk(s, ep);
    hide StagesOk, EventsOk, Free, Moves, Exclusive;
    MoveEvent(s, s', a, s'.stages[a], ep);
  }

  lemma {:induction false} GoKeeps(s: State, a: nat)
    requires Inv(s) && CanGo(s, a)
    ensures Inv(Go(s, a))
  {
    hide Exclusive, ListsOk, StagesOk, NoneLost, CanGo, Go, DropOk, EventOk;
    GoExclusive(s, a);
    GoLists(s, a);
    GoStages(s, a);
    GoNoneLost(s, a);
    var s' := Go(s, a);
    forall b | 0 <= b < |s'.stages| ensures DropOk(s', s'.stages[b]) {
      GoLength(s, a);
      GoDrop(s, a, b);
    }
    forall ep ensures EventOk(s', ep) {
      GoEvent(s, a, ep);
    }
  }

  lemma {:induction false} GoLength(s: State, a: nat)
    requires CanGo(s, a)
    ensures |Go(s, a).stages| == |s.stages|
  {
    GoMoves(s, a);
  }

  // --------------------------------------------------------------- steps from outside

  /** A byte arrives: whatever asks for input has its delivery under way. */
  lemma {:induction false} InputKeeps(s: State, a: nat)
    requires Inv(s) && Enabled(s, Input(a)) && s.unread != BUFFER
    ensures Inv(Next(s, Input(a)))
  {
    var s' := Next(s, Input(a));
    assert Moves(s, s', a, Pending);
    MoveExclusive(s, s', a, Pending);
    SameLists(s, s');
    QuietStages(s, s', a, Pending);
    forall e | e in s'.pollers && e in s'.entries ensures NotLost(s', e) {
      assert NotLost(s, e);
      InputComing(s, a, e);
    }
    forall b | 0 <= b < |s'.stages| ensures DropOk(s', s'.stages[b]) {
      assert DropOk(s, s.stages[b]);
      if s'.stages[b].Polled? && s'.stages[b].e in s.entries {
        InputComing(s, a, s'.stages[b].e);
      }
    }
    forall ep ensures EventOk(s', ep) {
      assert EventOk(s, ep);
      MoveEvent(s, s', a, Pending, ep);
    }
  }

  lemma {:induction false} InputComing(s: State, a: nat, e: Eid)
    requires Enabled(s, Input(a)) && s.unread != BUFFER && e in s.entries
    ensures var s' := Next(s, Input(a));
            && (s.entries[e].wants.input ==> InFlight(s', e))
            && (!s.entries[e].wants.input ==> Matches(s', e) == Matches(s, e))
            && (InFlight(s, e) ==> InFlight(s', e))
  {
    var s' := Next(s, Input(a));
    if s.entries[e].wants.input {
      NowInFlight(s', a, e);
    } else if InFlight(s, e) {
      StillInFlight(s, s', a, Pending, e);
    }
  }

  lemma {:induction false} ReadKeeps(s: State)
    requires Inv(s) && s.unread > 0
    ensures Inv(Next(s, ReadByte))
  {
    var s' := Next(s, ReadByte);
    if s.stages == [] {
      ReadRest(s);
    } else {
      assert Moves(s, s', 0, s.stages[0]);
      MoveExclusive(s, s', 0, s.stages[0]);
      SameLists(s, s');
      assert StageOk(s, s.stages[0]);
      ReadStages(s);
      ReadRest(s);
    }
  }

  lemma {:induction false} ReadStages(s: State)
    requires StagesOk(s) && s.unread > 0
    ensures StagesOk(Next(s, ReadByte))
  {
    var s' := Next(s, ReadByte);
    forall b | 0 <= b < |s'.stages| ensures StageOk(s', s'.stages[b]) {
      assert StageOk(s, s.stages[b]);
    }
  }

  lemma {:induction false} ReadRest(s: State)
    requires Inv(s) && s.unread > 0
    ensures ListsOk(Next(s, ReadByte)) && NoneLost(Next(s, ReadByte)) && DropsOk(Next(s, ReadByte))
    ensures EventsOk(Next(s, ReadByte))
  {
    var s' := Next(s, ReadByte);
    SameLists(s, s');
    forall e | e in s.entries ensures InFlight(s', e) == InFlight(s, e) && (Matches(s', e) ==> Matches(s, e)) {
      forall a | 0 <= a < |s.stages| ensures Coming(s', s'.stages[a], e) == Coming(s, s.stages[a], e) {
      }
    }
    forall e | e in s'.pollers && e in s'.entries ensures NotLost(s', e) {
      assert NotLost(s, e);
    }
    forall b | 0 <= b < |s'.stages| ensures DropOk(s', s'.stages[b]) {
      assert DropOk(s, s.stages[b]);
    }
    forall ep ensures EventOk(s', ep) {
      assert EventOk(s, ep);
      forall a | 0 <= a < |s.stages| ensures Signalling(s', s'.stages[a], ep) == Signalling(s, s.stages[a], ep) {
      }
    }
  }

  lemma {:induction false} AddKeeps(s: State, a: nat, e: Eid, entry: Entry)
    requires Inv(s) && Enabled(s, Add(a, e, entry)) && !Exists(s, entry)
    ensures Inv(Next(s, Add(a, e, entry)))
  {
    var s' := Next(s, Add(a, e, entry));
    assert Moves(s, s', a, Added(e));
    MoveExclusive(s, s', a, Added(e));
    SameLists(s, s');
    QuietStages(s, s', a, Added(e));
    QuietRest(s, s', a, Added(e));
  }

  lemma {:induction false} BeginKeeps(s: State, a: nat, ep: Ep, max: nat)
    requires Inv(s) && Enabled(s, Begin(a, ep, max))
    ensures Inv(Next(s, Begin(a, ep, max)))
  {
    var st := Scan(ep, max, Ready(s, ep), []);
    var s' := Next(s, Begin(a, ep, max));
    assert Moves(s, s', a, st);
    MoveExclusive(s, s', a, st);
    SameLists(s, s');
    assert Ready(s, ep) == Names([]) + Ready(s, ep);
    QuietStages(s, s', a, st);
    QuietRest(s, s', a, st);
  }

  /** An idle activity starts something that touches neither lists, input nor events. */
  lemma {:induction false} QuietRest(s: State, s': State, a: nat, st: Stage)
    requires ListsOk(s) && StagesOk(s) && NoneLost(s) && DropsOk(s) && EventsOk(s)
    requires Moves(s, s', a, st) && s.stages[a] == Idle && !st.Polled?
    requires s'.pollers == s.pollers && s'.ready == s.ready && s'.unread == s.unread && s'.signalled == s.signalled
    ensures NoneLost(s') && DropsOk(s') && EventsOk(s')
  {
    forall e | e in s'.pollers && e in s'.entries ensures NotLost(s', e) {
      assert NotLost(s, e);
      MoveNotLost(s, s', a, st, e);
    }
    forall b | 0 <= b < |s'.stages| ensures DropOk(s', s'.stages[b]) {
      if b != a {
        assert DropOk(s, s.stages[b]) && StageOk(s, s.stages[b]);
        MoveDrop(s, s', a, st, b);
      }
    }
    forall ep ensures EventOk(s', ep) {
      assert EventOk(s, ep);
      MoveEvent(s, s', a, st, ep);
    }
  }

  lemma {:induction false} StepKeeps(s: State, step: Step)
    requires Inv(s) && Enabled(s, step)
    ensures Inv(Next(s, step))
  {
    hide Inv, CanGo, Free, Exists, Go;
    match step
    case Input(a) => if s.unread != BUFFER { InputKeeps(s, a); }
    case ReadByte => ReadKeeps(s);
    case Add(a, e, entry) => if !Exists(s, entry) { AddKeeps(s, a, e, entry); }
    case Begin(a, ep, max) => BeginKeeps(s, a, ep, max);
    case Proceed(a) => GoKeeps(s, a);
  }

  // ---------------------------------------------------------------------------- runs

  ghost predicate Start(s: State) {
    && s.unread == 0 && s.entries == map[] && s.pollers == [] && s.ready == map[] && s.signalled == {}
    && forall a :: 0 <= a < |s.stages| ==> s.stages[a] == Idle
  }

  ghost predicate Run(ss: seq<State>, steps: seq<Step>) {
    && |ss| == |steps| + 1 && Start(ss[0])
    && forall i :: 0 <= i < |steps| ==> Enabled(ss[i], steps[i]) && ss[i + 1] == Next(ss[i], steps[i])
  }

  lemma {:induction false} RunKeeps(ss: seq<State>, steps: seq<Step>, i: nat)
    requires Run(ss, steps) && i < |ss|
    ensures Inv(ss[i])
  {
    if i > 0 {
      RunKeeps(ss, steps, i - 1);
      hide Inv, Enabled, Next;
      StepKeeps(ss[i - 1], steps[i - 1]);
    }
  }

  /** In every run a registered watch that wants input while a byte is unread, or that wants
      output at all, is on its ready list or an activity is still to put it there; and
      while the ready lock is free, a ready list that is not empty has its event signalled. */
  lemma {:induction false} NothingMissed(ss: seq<State>, steps: seq<Step>, i: nat, e: Eid)
    requires Run(ss, steps) && i < |ss| && e in ss[i].pollers
    ensures var s := ss[i];
            && e in s.entries
            && ((0 < s.unread && s.entries[e].wants.input) || s.entries[e].wants.output ==>
                  e in Ready(s, s.entries[e].ep) || InFlight(s, e))
            && (forall ep :: Free(s, ReadyLock(ep)) && Ready(s, ep) != [] ==> ep in s.signalled)
  {
    RunKeeps(ss, steps, i);
    var s := ss[i];
    assert NotLost(s, e);
    forall ep | Free(s, ReadyLock(ep)) && Ready(s, ep) != [] ensures ep in s.signalled {
      Signalled(s, ep);
    }
  }

  lemma {:induction false} Signalled(s: State, ep: Ep)
    requires EventsOk(s) && Free(s, ReadyLock(ep)) && Ready(s, ep) != []
    ensures ep in s.signalled
  {
    assert EventOk(s, ep);
    forall a | 0 <= a < |s.stages| ensures !Signalling(s, s.stages[a], ep) {
      assert !Holds(s, s.stages[a], ReadyLock(ep));
    }
  }

  /** Once every activity is through, each watch that wants input while a byte is unread, or
      that wants output, is on its ready list and its event is signalled. */
  lemma {:induction false} QuietReady(s: State, e: Eid)
    requires Inv(s) && (forall a :: 0 <= a < |s.stages| ==> s.stages[a] == Idle)
    requires e in s.pollers && e in s.entries
    requires (0 < s.unread && s.entries[e].wants.input) || s.entries[e].wants.output
    ensures e in Ready(s, s.entries[e].ep) && s.entries[e].ep in s.signalled
  {
    assert NotLost(s, e);
    assert Free(s, ReadyLock(s.entries[e].ep));
    Signalled(s, s.entries[e].ep);
  }
}
