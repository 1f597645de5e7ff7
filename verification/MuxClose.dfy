/**
 Tear-down in the multiplexer. Whatever ends a stream, each side announces it at most once; a
 side that ends a stream first does announce it; and no stream stays open on one side alone.
 */
module MuxClose {
  import opened Basics
  import opened Frame
  import opened Tube
  import opened Mux
  import opened MuxIntegrity
  import opened MuxSafety
  import opened MuxProgress

  /** How many CLOSE frames of a stream a list holds. */
  function Closes(fs: seq<Frame>, id: nat): nat {
    if fs == [] then 0 else Closes(Front(fs), id) + if Last(fs).kind == CLOSE && Last(fs).id == id then 1 else 0
  }

  lemma ClosesAppend(fs: seq<Frame>, f: Frame, id: nat)
    ensures Closes(fs + [f], id) == Closes(fs, id) + if f.kind == CLOSE && f.id == id then 1 else 0
  {
    assert Front(fs + [f]) == fs;
  }

  lemma {:induction false} ClosesPrefix(a: seq<Frame>, b: seq<Frame>, id: nat)
    requires a <= b
    ensures Closes(a, id) <= Closes(b, id)
    decreases |b|
  {
    if a != b { ClosesPrefix(a, Front(b), id); }
  }

  /** A CLOSE of a stream never comes before its OPEN. */
  lemma {:induction false} NoCloseBeforeOpen(sent: seq<Frame>, delivered: seq<Frame>, id: nat)
    requires OpenedBefore(sent) && delivered <= sent && !HasOpen(delivered, id)
    ensures Closes(delivered, id) == 0
    decreases |delivered|
  {
    if delivered != [] {
      var k := |delivered| - 1;
      assert Front(delivered) == sent[..k] && sent[k] == Last(delivered);
      assert !HasOpen(Front(delivered), id) by {
        forall f | f in Front(delivered) ensures f in delivered {}
      }
      NoCloseBeforeOpen(sent, Front(delivered), id);
    }
  }

  // ---- what a side has announced, and what it has heard ------------------------------------

  /**
   A side has sent no CLOSE for a stream it is not through with, and at most one for the others:
   exactly one, unless it shut down or the peer ended the stream first.
   */
  predicate CloseAt(s: Side, sent: seq<Frame>, id: nat) {
    if id !in s.streams then Closes(sent, id) == 0
    else
      var st := s.streams[id];
      && Closes(sent, id) <= (if st.phase == Gone then 1 else 0)
      && (st.phase == Closing || st.phase == Gone ==> !st.registered)
      && (st.phase == Gone && !s.done && !st.peerInitiated ==> Closes(sent, id) == 1)
  }

  /** A stream the peer has closed is no longer live, and only the peer's CLOSE makes it peer-initiated. */
  predicate Heard(s: Side, delivered: seq<Frame>, id: nat) {
    id in s.streams ==>
      && (Closes(delivered, id) > 0 ==> !s.streams[id].Live())
      && (s.streams[id].peerInitiated ==> Closes(delivered, id) > 0)
  }

  predicate CloseAll(s: System, id: nat) {
    && CloseAt(s.relay.side, s.relay.out.sent, id) && CloseAt(s.pump.side, s.pump.out.sent, id)
    && Heard(s.relay.side, s.pump.out.delivered, id) && Heard(s.pump.side, s.relay.out.delivered, id)
  }

  ghost predicate CloseInv(s: System) {
    forall id :: CloseAll(s, id)
  }

  // ---- one step keeps it --------------------------------------------------------------------

  lemma LocalClose(e: End, m: Local, id: nat)
    requires CloseAt(e.side, e.out.sent, id) && CanStep(e, m) && Encodable(e)
    requires m.Accept? ==> e.side.lastId + 1 !in e.side.streams
    ensures CloseAt(LocalStep(e, m).side, LocalStep(e, m).out.sent, id)
  {
    if !m.Accept? && !m.Shutdown? {
      var f := Emitted(m, e.side.streams[m.id]);
      assert LocalStep(e, m).out.sent == SentWith(e.out.sent, f);
      if f.Some? { ClosesAppend(e.out.sent, f.value, id); }
    }
  }

  /** No goroutine of a side makes a stream live again. */
  lemma LocalHeard(e: End, m: Local, delivered: seq<Frame>, id: nat)
    requires Heard(e.side, delivered, id) && CanStep(e, m) && Encodable(e)
    requires m.Accept? ==> Closes(delivered, e.side.lastId + 1) == 0
    ensures Heard(LocalStep(e, m).side, delivered, id)
  {
  }

  lemma ReceiveClose(s: Side, sent: seq<Frame>, f: Frame, pick: bool, id: nat)
    requires CloseAt(s, sent, id) && (f.kind == OPEN && s.role == Pump ==> f.id !in s.streams)
    ensures CloseAt(Receive(s, f, pick), sent, id)
  {
  }

  lemma ReceiveHeard(s: Side, delivered: seq<Frame>, f: Frame, pick: bool, id: nat)
    requires Heard(s, delivered, id)
    requires f.kind == OPEN && s.role == Pump ==> f.id !in s.streams && Closes(delivered, f.id) == 0
    ensures Heard(Receive(s, f, pick), delivered + [f], id)
  {
    ClosesAppend(delivered, f, id);
  }

  /** When an OPEN arrives, no CLOSE of its stream has. */
  lemma OpenIsFirst(s: System, cap: nat, f: Frame)
    requires Inv(s, cap) && f.kind == OPEN
    requires |s.relay.out.delivered| < |s.relay.out.sent| && f == s.relay.out.sent[|s.relay.out.delivered|]
    ensures f.id !in s.pump.side.streams && Closes(s.relay.out.delivered, f.id) == 0
  {
    var seen, sent := s.relay.out.delivered, s.relay.out.sent;
    OpenIsNew(s, cap, f);
    assert seen == sent[..|seen|];
    OpenedOnce(sent, |seen|);
    NoCloseBeforeOpen(sent, seen, f.id);
  }

  lemma DispatchKeepsClose(s: System, cap: nat, role: Role, pick: bool)
    requires Inv(s, cap) && CloseInv(s) && CanDo(s, cap, Dispatch(role, pick))
    ensures CloseInv(Next(s, cap, Dispatch(role, pick)))
  {
    var t, out, far := Next(s, cap, Dispatch(role, pick)), EndOf(s, role).out, EndOf(s, Peer(role));
    DeliverKeeps(out, cap);
    var f := out.sent[|out.delivered|];
    if f.kind == OPEN && role == Relay { OpenIsFirst(s, cap, f); }
    forall id ensures CloseAll(t, id) {
      assert CloseAll(s, id);
      ReceiveClose(far.side, far.out.sent, f, pick, id);
      ReceiveHeard(far.side, out.delivered, f, pick, id);
    }
  }

  /** A stream id not handed out yet is unknown on both sides. */
  lemma FreshId(s: System, cap: nat, role: Role, m: Local)
    requires Inv(s, cap) && CloseInv(s) && CanDo(s, cap, Do(role, m)) && m.Accept?
    ensures var id := s.relay.side.lastId + 1;
            role == Relay && id !in s.relay.side.streams && Closes(s.pump.out.delivered, id) == 0
  {
    var id := s.relay.side.lastId + 1;
    assert OpenAt(s.relay.side, s.relay.out.sent, id) && CloseAll(s, id);
    if HasOpen(s.relay.out.delivered, id) { HasOpenPrefix(s.relay.out.delivered, s.relay.out.sent, id); }
    ClosesPrefix(s.pump.out.delivered, s.pump.out.sent, id);
  }

  lemma DoKeepsClose(s: System, cap: nat, role: Role, m: Local)
    requires CloseInv(s) && CanDo(s, cap, Do(role, m))
    requires m.Accept? ==> EndOf(s, role).side.lastId + 1 !in EndOf(s, role).side.streams
    requires m.Accept? ==> Closes(EndOf(s, Peer(role)).out.delivered, EndOf(s, role).side.lastId + 1) == 0
    ensures CloseInv(Next(s, cap, Do(role, m)))
  {
    var t := Next(s, cap, Do(role, m));
    assert t == WithEnd(s, role, LocalStep(EndOf(s, role), m));
    forall id ensures CloseAll(t, id) {
      assert CloseAll(s, id);
      LocalClose(EndOf(s, role), m, id);
      LocalHeard(EndOf(s, role), m, EndOf(s, Peer(role)).out.delivered, id);
      assert LocalStep(EndOf(s, role), m).out.delivered == EndOf(s, role).out.delivered;
    }
  }

  lemma StepKeepsClose(s: System, cap: nat, l: Label)
    requires Inv(s, cap) && CloseInv(s) && CanDo(s, cap, l)
    ensures CloseInv(Next(s, cap, l))
  {
    match l
    case Do(role, m) =>
      if m.Accept? { FreshId(s, cap, role, m); }
      DoKeepsClose(s, cap, role, m);
    case Dispatch(role, pick) => DispatchKeepsClose(s, cap, role, pick);
    case Wire(role, move) =>
      forall id ensures CloseAll(Next(s, cap, l), id) { assert CloseAll(s, id); }
  }

  lemma {:induction false} RunKeepsClose(s: System, cap: nat, ls: seq<Label>)
    requires Inv(s, cap) && CloseInv(s)
    ensures CloseInv(Run(s, cap, ls))
  {
    if ls != [] {
      RunKeepsClose(s, cap, Front(ls));
      var t := Run(s, cap, Front(ls));
      if CanDo(t, cap, Last(ls)) {
        RunKeeps(s, cap, Front(ls));
        StepKeepsClose(t, cap, Last(ls));
      }
    }
  }

  lemma ReachedClose(cap: nat, ls: seq<Label>)
    ensures CloseInv(Run(START, cap, ls))
  {
    forall id ensures CloseAll(START, id) {
      ClosesAppend([], Frame(0, READY, []), id);
      assert START.relay.out.sent == [] + [Frame(0, READY, [])];
    }
    StartInv(cap);
    RunKeepsClose(START, cap, ls);
  }

  // ---- the theorems --------------------------------------------------------------------------

  /**
   In every run each side sends at most one CLOSE per stream, and only once it is through with
   it, whether the stream was shed, closed by its connection, refused by the daemon or shut down.
   */
  lemma ClosedAtMostOnce(cap: nat, ls: seq<Label>, role: Role, id: nat)
    ensures var e := EndOf(Run(START, cap, ls), role);
            Closes(e.out.sent, id) <= 1
            && (Closes(e.out.sent, id) == 1 ==> id in e.side.streams && e.side.streams[id].phase == Gone)
  {
    ReachedClose(cap, ls);
    assert CloseAll(Run(START, cap, ls), id);
  }

  /** In every run a side that is through with a stream the peer did not end has told the peer, exactly once. */
  lemma EndIsAnnounced(cap: nat, ls: seq<Label>, role: Role, id: nat)
    ensures var e := EndOf(Run(START, cap, ls), role);
            id in e.side.streams && !e.side.done ==>
              var st := e.side.streams[id];
              st.phase == Gone && !st.peerInitiated ==> Closes(e.out.sent, id) == 1
  {
    ReachedClose(cap, ls);
    assert CloseAll(Run(START, cap, ls), id);
  }

  /** The stream is over on the side and still live on the other. */
  predicate HalfOpen(s: System, role: Role, id: nat) {
    var near, far := EndOf(s, role).side.streams, EndOf(s, Peer(role)).side.streams;
    id in near && near[id].phase == Gone && id in far && far[id].Live()
  }

  lemma DrainedIsNotHalfOpen(s: System, cap: nat, role: Role, id: nat)
    requires Inv(s, cap) && CloseInv(s) && Open(s) && Drained(s)
    ensures !HalfOpen(s, role, id)
  {
    assert CloseAll(s, id);
    EmptyIsDelivered(s.relay.out, cap);
    EmptyIsDelivered(s.pump.out, cap);
  }

  /**
   No half-open stream: with both ends open and nothing under way, a stream over on one side is not
   live on the other.
   */
  lemma NoHalfOpen(cap: nat, ls: seq<Label>, role: Role, id: nat)
    ensures var s := Run(START, cap, ls); Open(s) && Drained(s) ==> !HalfOpen(s, role, id)
  {
    Reached(cap, ls);
    ReachedClose(cap, ls);
    var s := Run(START, cap, ls);
    if Open(s) && Drained(s) { DrainedIsNotHalfOpen(s, cap, role, id); }
  }

  lemma DrainEndsHalfOpen(s: System, cap: nat, more: seq<Label>, role: Role, id: nat)
    requires Inv(s, cap) && CloseInv(s) && Open(s) && DrainsTo(s, cap, more, Run(s, cap, more))
    ensures !HalfOpen(Run(s, cap, more), role, id)
  {
    RunKeeps(s, cap, more);
    RunKeepsClose(s, cap, more);
    DrainedIsNotHalfOpen(Run(s, cap, more), cap, role, id);
  }

  /**
   Nobody hangs: from every reachable state with both ends open the writers and the demux loops
   alone reach one where each stream over on one side is no longer live on the other.
   */
  lemma HalfOpenEnds(cap: nat, ls: seq<Label>) returns (more: seq<Label>)
    requires cap > 0 && Open(Run(START, cap, ls))
    ensures var s := Run(START, cap, ls); var t := Run(s, cap, more);
            && InternalRun(s, cap, more) && |more| <= TotalLoad(s)
            && forall role, id :: id in EndOf(s, role).side.streams ==>
                 && id in EndOf(t, role).side.streams
                 && EndOf(t, role).side.streams[id].phase == EndOf(s, role).side.streams[id].phase
                 && !HalfOpen(t, role, id)
  {
    var s := Run(START, cap, ls);
    Reached(cap, ls);
    ReachedClose(cap, ls);
    more := Drain(s, cap);
    var t := Run(s, cap, more);
    forall role, id | id in EndOf(s, role).side.streams
      ensures id in EndOf(t, role).side.streams
              && EndOf(t, role).side.streams[id].phase == EndOf(s, role).side.streams[id].phase
              && !HalfOpen(t, role, id)
    {
      DrainKeepsPhases(s, cap, more, t, role);
      DrainEndsHalfOpen(s, cap, more, role, id);
    }
  }
}
