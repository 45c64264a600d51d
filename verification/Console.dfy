/**
  The console's input ring and a poll instance's ready list, as the code changes them under
  their locks.
 */
module Console {
  import opened Epoll
  import opened Queues

  /** The input ring. `accepted` is every byte ever stored, `taken` every byte ever read. */
  class InputRing {
    const buffer: array<char>
    var length: nat
    var readHead: nat
    var writeHead: nat
    ghost var accepted: seq<char>
    ghost var taken: seq<char>

    ghost predicate Shape()
      reads this
    {
      && buffer.Length == BUFFER && length <= BUFFER && readHead < BUFFER && writeHead < BUFFER
      && writeHead == Slot(readHead, length)
    }

    ghost function Slot(head: nat, i: nat): nat
      requires head < BUFFER && i <= BUFFER
    {
      if head + i < BUFFER then head + i else head + i - BUFFER
    }

    ghost function Unread(): seq<char>
      requires Shape()
      reads this, buffer
    {
      seq(length, i requires 0 <= i < length && Shape() reads this, buffer => buffer[Slot(readHead, i)])
    }

    /** Bytes come out in the order they went in, none lost and none twice. */
    ghost predicate Valid()
      reads this, buffer
    {
      Shape() && taken + Unread() == accepted
    }

    constructor ()
      ensures Valid() && fresh(buffer) && Unread() == [] && accepted == []
    {
      buffer := new char[BUFFER](_ => '\0');
      length, readHead, writeHead := 0, 0, 0;
      accepted, taken := [], [];
    }

    /** `ex_console_input`: a full ring drops the byte. */
    method Input(c: char) returns (stored: bool)
      requires Valid()
      modifies this, buffer
      ensures Valid() && stored == (old(|Unread()|) < BUFFER) && taken == old(taken)
      ensures Unread() == old(Unread()) + if stored then [c] else []
    {
      if length == BUFFER {
        return false;
      }
      ghost var was := Unread();
      buffer[writeHead] := c;
      writeHead := writeHead + 1;
      if writeHead == BUFFER {
        writeHead := 0;
      }
      length := length + 1;
      accepted := accepted + [c];
      assert Unread() == was + [c];
      return true;
    }

    /** The part of `console_read` done under the lock, once for each byte. */
    method TakeByte() returns (c: char)
      requires Valid() && length > 0
      modifies this
      ensures Valid() && accepted == old(accepted)
      ensures [c] + Unread() == old(Unread())
    {
      ghost var was := Unread();
      c := buffer[readHead];
      readHead := readHead + 1;
      if readHead == BUFFER {
        readHead := 0;
      }
      length := length - 1;
      taken := taken + [c];
      assert [c] + Unread() == was;
    }

    /** `console_read` with nothing in between: as much as is there, up to `size`, or a
        refusal when there is nothing. */
    method Read(size: nat) returns (again: bool, bytes: seq<char>)
      requires Valid()
      modifies this
      ensures Valid() && accepted == old(accepted)
      ensures again <==> old(Unread()) == []
      ensures bytes + Unread() == old(Unread())
      ensures |bytes| == if size < old(|Unread()|) then size else old(|Unread()|)
    {
      bytes := [];
      if length == 0 {
        return true, [];
      }
      again := false;
      while |bytes| < size && length > 0
        invariant Valid() && accepted == old(accepted) && |bytes| <= size && bytes + Unread() == old(Unread())
        decreases size - |bytes|
      {
        ghost var was, done := Unread(), bytes;
        var c := TakeByte();
        bytes := bytes + [c];
        assert done + [c] + Unread() == done + was;
      }
    }
  }

  /** What a scan makes of the ready watches it polls. */
  function Keep(q: seq<Eid>, wants: map<Eid, Mask>, answers: Eid -> Mask): (r: seq<Report>)
    requires forall e :: e in q ==> e in wants
  {
    if q == [] then []
    else
      var m := And(answers(q[0]), wants[q[0]]);
      (if m != NOTHING then [Report(q[0], m)] else []) + Keep(q[1..], wants, answers)
  }

  /** What is reported is what is there and wanted, of each watch that has any. */
  lemma {:induction false} KeepIs(q: seq<Eid>, wants: map<Eid, Mask>, answers: Eid -> Mask)
    requires Distinct(q) && forall e :: e in q ==> e in wants
    ensures var r := Keep(q, wants, answers);
            && (forall i :: 0 <= i < |r| ==>
                  && r[i].e in q && r[i].events.input == (answers(r[i].e).input && wants[r[i].e].input)
                  && r[i].events.output == (answers(r[i].e).output && wants[r[i].e].output))
            && (forall e :: e in q ==>
                  (e in Names(r) <==>
                     (answers(e).input && wants[e].input) || (answers(e).output && wants[e].output)))
  {
    if q != [] {
      TailOf(q);
      KeepIs(q[1..], wants, answers);
      var r, rest := Keep(q, wants, answers), Keep(q[1..], wants, answers);
      var m := And(answers(q[0]), wants[q[0]]);
      assert Names(r) == (if m != NOTHING then [q[0]] else []) + Names(rest);
      forall i | 0 <= i < |Names(rest)| ensures Names(rest)[i] in q[1..] {
        assert rest[i].e in q[1..];
      }
    }
  }

  lemma {:induction false} KeepMore(q: seq<Eid>, e: Eid, wants: map<Eid, Mask>, answers: Eid -> Mask)
    requires forall x :: x in q + [e] ==> x in wants
    ensures forall x :: x in q ==> x in wants
    ensures var m := And(answers(e), wants[e]);
            Keep(q + [e], wants, answers) == Keep(q, wants, answers) + if m != NOTHING then [Report(e, m)] else []
  {
    assert forall x :: x in q ==> x in q + [e];
    if q == [] {
    } else {
      assert (q + [e])[1..] == q[1..] + [e];
      KeepMore(q[1..], e, wants, answers);
    }
  }

  /** A scan `k` watches in: what it has reported, and what the ready list is by now. */
  ghost predicate Scanned(was: seq<Eid>, k: nat, q: seq<Eid>, reports: seq<Report>, wants: map<Eid, Mask>,
                          answers: Eid -> Mask) {
    && k <= |was| && Distinct(q) && q == Names(reports) + was[k..] && (forall e :: e in was ==> e in wants)
    && reports == Keep(was[..k], wants, answers)
  }

  lemma {:induction false} ScanStart(was: seq<Eid>, wants: map<Eid, Mask>, answers: Eid -> Mask)
    requires Distinct(was) && forall e :: e in was ==> e in wants
    ensures Scanned(was, 0, was, [], wants, answers)
  {
  }

  lemma {:induction false} ScanAt(was: seq<Eid>, k: nat, q: seq<Eid>, reports: seq<Report>, wants: map<Eid, Mask>,
                                  answers: Eid -> Mask)
    requires Scanned(was, k, q, reports, wants, answers) && |reports| < |q|
    ensures k < |was| && q[|reports|] == was[k] && was[k] in wants
  {
  }

  lemma {:induction false} ScanOne(was: seq<Eid>, k: nat, q: seq<Eid>, reports: seq<Report>, wants: map<Eid, Mask>,
                                   answers: Eid -> Mask)
    requires Scanned(was, k, q, reports, wants, answers) && k < |was| && was[k] in wants
    ensures var e := was[k];
            var m := And(answers(e), wants[e]);
            if m != NOTHING then Scanned(was, k + 1, q, reports + [Report(e, m)], wants, answers)
            else Scanned(was, k + 1, Without(q, e), reports, wants, answers)
  {
    hide Keep, Without, Distinct, And;
    var e := was[k];
    var m := And(answers(e), wants[e]);
    assert was[..k + 1] == was[..k] + [e] && was[k..] == [e] + was[k + 1..];
    KeepMore(was[..k], e, wants, answers);
    WithoutAt(q, |reports|);
    WithoutDistinct(q, e);
    assert q[..|reports|] == Names(reports) && q[|reports| + 1..] == was[k + 1..];
    assert Names(reports + [Report(e, m)]) == Names(reports) + [e];
    assert reports + [] == reports;
  }

  lemma {:induction false} ScanEnd(was: seq<Eid>, k: nat, q: seq<Eid>, reports: seq<Report>, wants: map<Eid, Mask>,
                                   answers: Eid -> Mask)
    requires Scanned(was, k, q, reports, wants, answers)
    ensures k <= |was| && (forall e :: e in was[..k] ==> e in wants) && reports == Keep(was[..k], wants, answers)
    ensures q == Names(reports) + was[k..] && Distinct(q) && (forall e :: e in q ==> e in wants)
    ensures |q| <= |reports| ==> k == |was|
    ensures q != [] ==> was != []
  {
    KeptKnown(was, k, reports, wants, answers);
  }

  lemma {:induction false} FrontDistinct(q: seq<Eid>, k: nat)
    requires Distinct(q) && k <= |q|
    ensures Distinct(q[..k])
  {
  }

  /** A poll instance's ready list and event. */
  class PollInstance {
    var ready: seq<Eid>
    var event: bool
    const wants: map<Eid, Mask>

    ghost predicate Valid()
      reads this
    {
      Distinct(ready) && (forall e :: e in ready ==> e in wants) && (ready != [] ==> event)
    }

    /** What deliveries and new watches do under the ready lock. */
    method MakeReady(e: Eid)
      requires Valid() && e in wants
      modifies this`ready, this`event
      ensures Valid() && event && ready == if e in old(ready) then old(ready) else [e] + old(ready)
    {
      if e !in ready {
        WithFirst(e, ready);
        ready := [e] + ready;
      }
      event := true;
    }

    /** `process_ready`, where `answers` is what each watched file says when it is polled:
        a front part of the ready list is polled, its watches with something to report are
        reported in order and stay, the others leave, and the scan stops short only at
        `max` reports. The event is cleared exactly when nothing is left. */
    method ProcessReady(max: nat, answers: Eid -> Mask) returns (reports: seq<Report>, ghost polled: nat)
      requires Valid()
      modifies this`ready, this`event
      ensures Valid() && polled <= |old(ready)| && |reports| <= max
      ensures reports == Keep(old(ready)[..polled], wants, answers)
      ensures ready == Names(reports) + old(ready)[polled..]
      ensures forall i :: 0 <= i < |reports| ==>
                var e := reports[i].e;
                && e in wants && reports[i].events.input == (answers(e).input && wants[e].input)
                && reports[i].events.output == (answers(e).output && wants[e].output)
      ensures forall e :: e in old(ready)[..polled] ==>
                && e in wants
                && (e in Names(reports) <==>
                      (answers(e).input && wants[e].input) || (answers(e).output && wants[e].output))
      ensures polled == |old(ready)| || |reports| == max
      ensures event == (old(event) && ready != [])
    {
      hide Keep, Distinct, Names, Scanned;
      ghost var was := ready;
      reports, polled := [], 0;
      var i := 0;
      ScanStart(was, wants, answers);
      while i < |ready| && |reports| != max
        invariant Scanned(was, polled, ready, reports, wants, answers) && i == |reports| <= max
        invariant event == old(event)
        decreases |was| - polled
      {
        ScanAt(was, polled, ready, reports, wants, answers);
        ScanOne(was, polled, ready, reports, wants, answers);
        var e := ready[i];
        var m := And(answers(e), wants[e]);
        if m != NOTHING {
          reports := reports + [Report(e, m)];
          i := i + 1;
        } else {
          ready := Without(ready, e);
        }
        polled := polled + 1;
      }
      ScanEnd(was, polled, ready, reports, wants, answers);
      FrontDistinct(was, polled);
      KeepIs(was[..polled], wants, answers);
      if ready == [] {
        event := false;
      }
    }
  }

  lemma {:induction false} KeptKnown(was: seq<Eid>, k: nat, reports: seq<Report>, wants: map<Eid, Mask>,
                                     answers: Eid -> Mask)
    requires k <= |was| && (forall e :: e in was ==> e in wants) && reports == Keep(was[..k], wants, answers)
    ensures forall e :: e in Names(reports) + was[k..] ==> e in wants
    decreases k
  {
    assert forall e :: e in was[k..] ==> e in was;
    if k > 0 {
      assert was[..k] == was[..k - 1] + [was[k - 1]];
      KeepMore(was[..k - 1], was[k - 1], wants, answers);
      var less := Keep(was[..k - 1], wants, answers);
      KeptKnown(was, k - 1, less, wants, answers);
      forall i | 0 <= i < |reports| ensures reports[i].e in wants {
        if i < |less| {
          assert Names(less)[i] in Names(less) + was[k - 1..];
        }
      }
    }
  }
}
