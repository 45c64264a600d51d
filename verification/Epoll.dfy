/**
  Poll watches on the console: input deliveries, watches being added, waiters scanning a
  ready list and readers, interleaved at the points where their locks allow it. An
  activity is at one `Stage` of its code, and which locks it holds follows from the stage.
  The console's unread count is read without a lock.
 */
module Epoll {
  import opened Queues

  type Eid = nat
  type Ep = nat

  datatype Mask = Mask(input: bool, output: bool)

  function And(a: Mask, b: Mask): Mask {
    Mask(a.input && b.input, a.output && b.output)
  }

  const NOTHING := Mask(false, false)

  /** A watch: its poll instance, the file and descriptor it is for, the events wanted. */
  datatype Entry = Entry(ep: Ep, key: nat, wants: Mask)

  datatype Report = Report(e: Eid, events: Mask)

  datatype Stage =
    | Idle
    // ex_console_input, after the byte is stored
    | Pending
    | Walk(rest: seq<Eid>)
    | Inserted(ep: Ep, rest: seq<Eid>)
    // watch_add
    | Added(e: Eid)
    | Registered(e: Eid)
    | Matched(e: Eid)
    | Entered(e: Eid)
    // process_ready
    | Scan(ep: Ep, max: nat, rest: seq<Eid>, reports: seq<Report>)
    | Polled(ep: Ep, max: nat, e: Eid, r: Mask, rest: seq<Eid>, reports: seq<Report>)

  datatype State = State(
    unread: nat,
    entries: map<Eid, Entry>,
    pollers: seq<Eid>,
    ready: map<Ep, seq<Eid>>,
    signalled: set<Ep>,
    stages: seq<Stage>)

  function Ready(s: State, ep: Ep): seq<Eid> {
    if ep in s.ready then s.ready[ep] else []
  }

  // ---------------------------------------------------------------------------- locks

  datatype Lock = PollHead | ReadyLock(ep: Ep) | Mutex(ep: Ep)

  predicate Holds(s: State, st: Stage, l: Lock) {
    match st
    case Walk(_) => l == PollHead
    case Inserted(ep, _) => l == PollHead || l == ReadyLock(ep)
    case Added(e) => e in s.entries && l == Mutex(s.entries[e].ep)
    case Registered(e) => e in s.entries && l == Mutex(s.entries[e].ep)
    case Matched(e) => e in s.entries && l == Mutex(s.entries[e].ep)
    case Entered(e) => e in s.entries && (l == Mutex(s.entries[e].ep) || l == ReadyLock(s.entries[e].ep))
    case Scan(ep, _, _, _) => l == ReadyLock(ep)
    case Polled(ep, _, _, _, _, _) => l == ReadyLock(ep)
    case _ => false
  }

  ghost predicate Free(s: State, l: Lock) {
    forall a :: 0 <= a < |s.stages| ==> !Holds(s, s.stages[a], l)
  }

  // ---------------------------------------------------------------------------- steps

  const BUFFER := 4096

  function Answer(unread: nat): Mask {
    Mask(unread > 0, true)
  }

  function Wanted(s: State, e: Eid, r: Mask): Mask
    requires e in s.entries
  {
    And(r, s.entries[e].wants)
  }

  function At(s: State, a: nat, st: Stage): State
    requires a < |s.stages|
  {
    s.(stages := s.stages[a := st])
  }

  function Insert(s: State, e: Eid): State
    requires e in s.entries
  {
    var ep := s.entries[e].ep;
    if e in Ready(s, ep) then s else s.(ready := s.ready[ep := [e] + Ready(s, ep)])
  }

  function Signal(s: State, ep: Ep): State {
    s.(signalled := s.signalled + {ep})
  }

  /** The next action of an activity under way, and when its locks allow it. */
  ghost predicate CanGo(s: State, a: nat) {
    a < |s.stages| &&
    match s.stages[a]
    case Idle => false
    case Pending => Free(s, PollHead)
    case Walk(rest) =>
      rest == []
      || (rest[0] in s.entries && (s.entries[rest[0]].wants.input ==> Free(s, ReadyLock(s.entries[rest[0]].ep))))
    case Inserted(_, _) => true
    case Added(_) => Free(s, PollHead)
    case Registered(e) => e in s.entries
    case Matched(e) => e in s.entries && Free(s, ReadyLock(s.entries[e].ep))
    case Entered(e) => e in s.entries
    case Scan(_, max, rest, reports) => true
    case Polled(_, _, e, _, _, _) => e in s.entries
  }

  ghost function Go(s: State, a: nat): State
    requires CanGo(s, a)
  {
    match s.stages[a]
    case Pending => At(s, a, Walk(s.pollers))
    case Walk(rest) =>
      if rest == [] then At(s, a, Idle)
      else if !s.entries[rest[0]].wants.input then At(s, a, Walk(rest[1..]))
      else At(Insert(s, rest[0]), a, Inserted(s.entries[rest[0]].ep, rest[1..]))
    case Inserted(ep, rest) => At(Signal(s, ep), a, Walk(rest))
    case Added(e) => At(s.(pollers := [e] + s.pollers), a, Registered(e))
    case Registered(e) => At(s, a, if Wanted(s, e, Answer(s.unread)) != NOTHING then Matched(e) else Idle)
    case Matched(e) => At(Insert(s, e), a, Entered(e))
    case Entered(e) => At(Signal(s, s.entries[e].ep), a, Idle)
    case Scan(ep, max, rest, reports) =>
      if rest == [] || |reports| == max then
        At(if Ready(s, ep) == [] then s.(signalled := s.signalled - {ep}) else s, a, Idle)
      else At(s, a, Polled(ep, max, rest[0], Answer(s.unread), rest[1..], reports))
    case Polled(ep, max, e, r, rest, reports) =>
      if Wanted(s, e, r) != NOTHING then At(s, a, Scan(ep, max, rest, reports + [Report(e, Wanted(s, e, r))]))
      else At(s.(ready := s.ready[ep := Without(Ready(s, ep), e)]), a, Scan(ep, max, rest, reports))
  }

  datatype Step =
    | Input(a: nat)
    | ReadByte
    | Add(a: nat, e: Eid, entry: Entry)
    | Begin(a: nat, ep: Ep, max: nat)
    | Proceed(a: nat)

  ghost predicate Enabled(s: State, step: Step) {
    match step
    case Input(a) => a < |s.stages| && s.stages[a] == Idle
    case ReadByte => s.unread > 0
    case Add(a, e, entry) => a < |s.stages| && s.stages[a] == Idle && e !in s.entries && Free(s, Mutex(entry.ep))
    case Begin(a, ep, max) => a < |s.stages| && s.stages[a] == Idle && Free(s, ReadyLock(ep))
    case Proceed(a) => CanGo(s, a)
  }

  /** `watch_add` refuses a second watch for the same file and descriptor. */
  ghost predicate Exists(s: State, entry: Entry) {
    exists x :: x in s.entries && s.entries[x].ep == entry.ep && s.entries[x].key == entry.key
  }

  ghost function Next(s: State, step: Step): State
    requires Enabled(s, step)
  {
    match step
    case Input(a) => if s.unread == BUFFER then s else At(s.(unread := s.unread + 1), a, Pending)
    case ReadByte => s.(unread := s.unread - 1)
    case Add(a, e, entry) => if Exists(s, entry) then s else At(s.(entries := s.entries[e := entry]), a, Added(e))
    case Begin(a, ep, max) => At(s, a, Scan(ep, max, Ready(s, ep), []))
    case Proceed(a) => Go(s, a)
  }

  // ------------------------------------------------------------------- the invariant

  /** No lock is held twice. */
  ghost predicate Exclusive(s: State) {
    forall a, b, l ::
      0 <= a < |s.stages| && 0 <= b < |s.stages| && Holds(s, s.stages[a], l) && Holds(s, s.stages[b], l) ==> a == b
  }

  ghost predicate ReadyOk(s: State, ep: Ep) {
    && Distinct(Ready(s, ep))
    && forall e :: e in Ready(s, ep) ==> e in s.pollers && e in s.entries && s.entries[e].ep == ep
  }

  ghost predicate ListsOk(s: State) {
    Distinct(s.pollers) && (forall e :: e in s.pollers ==> e in s.entries) && forall ep :: ReadyOk(s, ep)
  }

  function Names(reports: seq<Report>): seq<Eid> {
    seq(|reports|, i requires 0 <= i < |reports| => reports[i].e)
  }

  /** What was reported is something the watch asked for. */
  ghost predicate ReportsOk(s: State, reports: seq<Report>) {
    forall i :: 0 <= i < |reports| ==>
      && reports[i].e in s.entries && reports[i].events != NOTHING
      && And(reports[i].events, s.entries[reports[i].e].wants) == reports[i].events
  }

  /** Where an activity stands in the lists. A scan has reported what it has passed. */
  ghost predicate StageOk(s: State, st: Stage) {
    match st
    case Walk(rest) => forall e :: e in rest ==> e in s.pollers
    case Inserted(ep, rest) => forall e :: e in rest ==> e in s.pollers
    case Added(e) => e in s.entries && e !in s.pollers
    case Registered(e) => e in s.entries && e in s.pollers
    case Matched(e) => e in s.entries && e in s.pollers
    case Entered(e) => e in s.entries && e in s.pollers
    case Scan(ep, max, rest, reports) =>
      Ready(s, ep) == Names(reports) + rest && ReportsOk(s, reports) && |reports| <= max
    case Polled(ep, max, e, r, rest, reports) =>
      Ready(s, ep) == Names(reports) + [e] + rest && ReportsOk(s, reports) && |reports| < max && e in s.entries
    case _ => true
  }

  ghost predicate StagesOk(s: State) {
    forall a :: 0 <= a < |s.stages| ==> StageOk(s, s.stages[a])
  }

  ghost predicate Matches(s: State, e: Eid)
    requires e in s.entries
  {
    Wanted(s, e, Answer(s.unread)) != NOTHING
  }

  /** The activity is still to put `e` on its ready list, or to look whether it should. */
  predicate Coming(s: State, st: Stage, e: Eid)
    requires e in s.entries
  {
    match st
    case Pending => s.entries[e].wants.input
    case Walk(rest) => e in rest && s.entries[e].wants.input
    case Inserted(_, rest) => e in rest && s.entries[e].wants.input
    case Registered(x) => x == e
    case Matched(x) => x == e
    case _ => false
  }

  ghost predicate InFlight(s: State, e: Eid)
    requires e in s.entries
  {
    exists a :: 0 <= a < |s.stages| && Coming(s, s.stages[a], e)
  }

  ghost predicate NotLost(s: State, e: Eid)
    requires e in s.entries
  {
    Matches(s, e) ==> e in Ready(s, s.entries[e].ep) || InFlight(s, e)
  }

  ghost predicate NoneLost(s: State) {
    forall e :: e in s.pollers && e in s.entries ==> NotLost(s, e)
  }

  /** A waiter about to drop a watch it saw unready: if that changed, a delivery is on
      its way, for the waiter has the ready lock. */
  ghost predicate DropOk(s: State, st: Stage) {
    st.Polled? && st.e in s.entries && Wanted(s, st.e, st.r) == NOTHING ==> Matches(s, st.e) ==> InFlight(s, st.e)
  }

  ghost predicate DropsOk(s: State) {
    forall a :: 0 <= a < |s.stages| ==> DropOk(s, s.stages[a])
  }

  /** The activity has put something on `ep`'s ready list and is about to signal. */
  predicate Signalling(s: State, st: Stage, ep: Ep) {
    match st
    case Inserted(x, _) => x == ep
    case Entered(e) => e in s.entries && s.entries[e].ep == ep
    case _ => false
  }

  ghost predicate EventOk(s: State, ep: Ep) {
    Ready(s, ep) != [] ==> ep in s.signalled || exists a :: 0 <= a < |s.stages| && Signalling(s, s.stages[a], ep)
  }

  ghost predicate EventsOk(s: State) {
    forall ep :: EventOk(s, ep)
  }

  ghost predicate Inv(s: State) {
    && Exclusive(s) && ListsOk(s) && StagesOk(s)
    && NoneLost(s) && DropsOk(s) && EventsOk(s)
  }
}
