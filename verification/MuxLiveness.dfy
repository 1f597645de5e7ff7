/**
 What the multiplexer can always do while both ends are open: a connection whose reader has ended
 ends on both sides, a new connection opens on both sides, and bytes read on one side of a live
 stream are written on the other. The runs are given; the connections are assumed to take part.
 */
module MuxLiveness {
  import opened Basics
  import opened Frame
  import opened Tube
  import opened Mux
  import opened MuxIntegrity
  import opened MuxSafety
  import opened MuxProgress
  import opened MuxClose

  // ---- the end of a reader -------------------------------------------------------------------

  /** Where the reader has ended the stream is torn down, and nobody reads once the stream is over. */
  predicate TornDown(st: Stream) {
    && (st.phase == Serving && !st.reading ==> st.closed)
    && ((st.phase == Closing || st.phase == Gone) && st.reading ==> st.closed)
    && (st.phase == Announcing || st.phase == Dialing ==> !st.reading)
    && |st.queue| <= STREAM_QUEUE
  }

  predicate AllTornDown(s: Side) {
    forall id | id in s.streams :: TornDown(s.streams[id]) && RightPhase(s.role, s.streams[id])
  }

  /** The pump announces nothing; every stream of the relay has a connection, closed when the stream is over. */
  predicate RightPhase(role: Role, st: Stream) {
    if role == Pump then st.phase != Announcing
    else st.phase != Dialing && (st.phase == Closing || st.phase == Gone ==> st.closed)
  }

  predicate BothTornDown(s: System) {
    AllTornDown(s.relay.side) && AllTornDown(s.pump.side)
  }

  lemma NextIsTornDown(e: End, m: Local, st: Stream)
    requires !m.Accept? && !m.Shutdown? && CanStepStream(e, m, st) && TornDown(st)
    ensures TornDown(NextStream(m, st)) && forall r :: RightPhase(r, st) ==> RightPhase(r, NextStream(m, st))
  {
  }

  lemma LocalTearsDown(e: End, m: Local)
    requires AllTornDown(e.side) && CanStep(e, m) && Encodable(e)
    ensures AllTornDown(LocalStep(e, m).side)
  {
    if !m.Accept? && !m.Shutdown? { NextIsTornDown(e, m, e.side.streams[m.id]); }
  }

  lemma ReceiveTearsDown(s: Side, f: Frame, pick: bool)
    requires AllTornDown(s)
    ensures AllTornDown(Receive(s, f, pick))
  {
  }

  lemma StepTearsDown(s: System, cap: nat, l: Label)
    requires BothTornDown(s) && CanDo(s, cap, l)
    ensures BothTornDown(Next(s, cap, l))
  {
    match l
    case Do(role, m) => LocalTearsDown(EndOf(s, role), m);
    case Wire(_, _) =>
    case Dispatch(role, pick) =>
      ReceiveTearsDown(EndOf(s, Peer(role)).side, Decode(EndOf(s, role).out.acc).frame, pick);
  }

  lemma {:induction false} RunTearsDown(s: System, cap: nat, ls: seq<Label>)
    requires BothTornDown(s)
    ensures BothTornDown(Run(s, cap, ls))
  {
    if ls != [] {
      RunTearsDown(s, cap, Front(ls));
      var t := Run(s, cap, Front(ls));
      if CanDo(t, cap, Last(ls)) { StepTearsDown(t, cap, Last(ls)); }
    }
  }

  /**
   In every run, on both sides: a serving stream whose reader has ended, because the connection was closed
   or failed, is torn down; and no reader is left on an open connection once its stream is over. On the
   relay, where every stream has a connection, that connection is then closed.
   */
  lemma ReaderEndsStream(cap: nat, ls: seq<Label>, role: Role, id: nat)
    ensures var streams := EndOf(Run(START, cap, ls), role).side.streams;
            id in streams ==>
              && (streams[id].phase == Serving && !streams[id].reading ==> streams[id].closed)
              && ((streams[id].phase == Closing || streams[id].phase == Gone) && streams[id].reading ==>
                    streams[id].closed)
              && (role == Relay && (streams[id].phase == Closing || streams[id].phase == Gone) ==> streams[id].closed)
  {
    RunTearsDown(START, cap, ls);
    SidesKeepRoles(cap, ls);
  }

  lemma SidesKeepRoles(cap: nat, ls: seq<Label>)
    ensures var s := Run(START, cap, ls); s.relay.side.role == Relay && s.pump.side.role == Pump
  {
    Reached(cap, ls);
  }

  /** Memory is bounded in every run: 256 chunks a stream, 256 frames a side, and the pipe. */
  lemma QueuesAreBounded(cap: nat, ls: seq<Label>, role: Role, id: nat)
    ensures var e := EndOf(Run(START, cap, ls), role);
            && |e.out.outCh| <= 256 && |e.out.pipe| <= cap
            && (id in e.side.streams ==> |e.side.streams[id].queue| <= 256 && |e.side.streams[id].chunk| <= 32768)
  {
    RunTearsDown(START, cap, ls);
    NeverHeldBack(cap, ls, role);
    Reached(cap, ls);
  }

  /** A stream torn down stays so, and its connection is neither read nor written any more. */
  predicate ClosedStays(a: Side, b: Side) {
    forall id | id in a.streams && id in b.streams && a.streams[id].closed ::
      b.streams[id].closed && b.streams[id].read == a.streams[id].read && b.streams[id].written == a.streams[id].written
  }

  lemma LocalIsFinal(e: End, m: Local)
    requires CanStep(e, m) && Encodable(e) && (m.Accept? ==> e.side.lastId + 1 !in e.side.streams)
    ensures ClosedStays(e.side, LocalStep(e, m).side)
  {
  }

  lemma ReceiveIsFinal(s: Side, f: Frame, pick: bool)
    requires f.kind == OPEN && s.role == Pump ==> f.id !in s.streams
    ensures ClosedStays(s, Receive(s, f, pick))
  {
  }

  lemma DispatchIsFinal(s: System, cap: nat, role: Role, pick: bool)
    requires Inv(s, cap) && CanDo(s, cap, Dispatch(role, pick))
    ensures ClosedStays(EndOf(s, Peer(role)).side, EndOf(Next(s, cap, Dispatch(role, pick)), Peer(role)).side)
  {
    var out := EndOf(s, role).out;
    DeliverKeeps(out, cap);
    var f := out.sent[|out.delivered|];
    if f.kind == OPEN && role == Relay { OpenIsNew(s, cap, f); }
    ReceiveIsFinal(EndOf(s, Peer(role)).side, f, pick);
  }

  lemma DoIsFinal(s: System, cap: nat, role: Role, m: Local)
    requires Inv(s, cap) && CanDo(s, cap, Do(role, m))
    ensures ClosedStays(EndOf(s, role).side, EndOf(Next(s, cap, Do(role, m)), role).side)
  {
    if m.Accept? { assert OpenAt(s.relay.side, s.relay.out.sent, s.relay.side.lastId + 1); }
    LocalIsFinal(EndOf(s, role), m);
  }

  /** Tear-down is final, whatever any goroutine of either side does next. */
  lemma TearDownIsFinal(s: System, cap: nat, l: Label, role: Role)
    requires Inv(s, cap) && CanDo(s, cap, l)
    ensures ClosedStays(EndOf(s, role).side, EndOf(Next(s, cap, l), role).side)
  {
    if l.Do? && l.role == role {
      DoIsFinal(s, cap, role, l.m);
    } else if l.Dispatch? && l.role != role {
      DispatchIsFinal(s, cap, l.role, l.pick);
    } else {
      assert EndOf(Next(s, cap, l), role).side == EndOf(s, role).side;
    }
  }

  // ---- runs put together ---------------------------------------------------------------------

  ghost predicate Sound(s: System, cap: nat) {
    Inv(s, cap) && CloseInv(s) && BothTornDown(s)
  }

  ghost predicate Fine(s: System, cap: nat) {
    Sound(s, cap) && Open(s) && cap > 0
  }

  lemma {:induction false} RunJoin(s: System, cap: nat, a: seq<Label>, b: seq<Label>)
    ensures Run(s, cap, a + b) == Run(Run(s, cap, a), cap, b)
    decreases |b|
  {
    if b == [] {
      assert a + b == a;
    } else {
      RunJoin(s, cap, a, Front(b));
      assert Front(a + b) == a + Front(b) && Last(a + b) == Last(b);
    }
  }

  lemma SoundReached(cap: nat, ls: seq<Label>)
    ensures Sound(Run(START, cap, ls), cap)
  {
    Reached(cap, ls);
    ReachedClose(cap, ls);
    RunTearsDown(START, cap, ls);
  }

  /** t is what the goroutine step m of one side makes of s. */
  predicate Did(s: System, t: System, role: Role, m: Local) {
    && CanStep(EndOf(s, role), m) && Encodable(EndOf(s, role))
    && EndOf(t, role) == LocalStep(EndOf(s, role), m) && EndOf(t, Peer(role)) == EndOf(s, Peer(role))
  }

  lemma Does(s: System, cap: nat, role: Role, m: Local)
    requires Sound(s, cap) && CanStep(EndOf(s, role), m)
    ensures var t := Run(s, cap, [Do(role, m)]);
            && Sound(t, cap) && Did(s, t, role, m)
            && (!m.Shutdown? ==> t.relay.side.done == s.relay.side.done && t.pump.side.done == s.pump.side.done)
  {
    var e := EndOf(s, role);
    NearEncodable(e);
    var l := Do(role, m);
    assert CanDo(s, cap, l);
    assert Run(s, cap, [l]) == Next(s, cap, l) by { assert Front([l]) == [] && Last([l]) == l; }
    StepKeeps(s, cap, l);
    StepKeepsClose(s, cap, l);
    StepTearsDown(s, cap, l);
  }

  lemma Drains(s: System, cap: nat) returns (ls: seq<Label>)
    requires Fine(s, cap)
    ensures DrainsTo(s, cap, ls, Run(s, cap, ls)) && Fine(Run(s, cap, ls), cap)
  {
    ls := Drain(s, cap);
    RunKeeps(s, cap, ls);
    RunKeepsClose(s, cap, ls);
    RunTearsDown(s, cap, ls);
    DrainKeepsPhases(s, cap, ls, Run(s, cap, ls), Relay);
    DrainKeepsPhases(s, cap, ls, Run(s, cap, ls), Pump);
  }

  // ---- a stream that has ended gets through ----------------------------------------------------

  /** The phase of a stream, or None where it is not known. */
  function PhaseAt(s: System, role: Role, id: nat): Option<Phase> {
    var streams := EndOf(s, role).side.streams; if id in streams then Some(streams[id].phase) else None
  }

  /** A CLOSE is owed: once the tunnel has room it goes out. */
  lemma OwedCloseGoes(s: System, cap: nat, role: Role, id: nat) returns (ls: seq<Label>)
    requires Fine(s, cap) && PhaseAt(s, role, id) == Some(Closing)
    ensures var t := Run(s, cap, ls);
            && Fine(t, cap) && PhaseAt(t, role, id) == Some(Gone)
            && Closes(EndOf(t, role).out.sent, id) == 1
            && KeepsPhases(s, t, Peer(role))
  {
    var first := Drains(s, cap);
    var u := Run(s, cap, first);
    DrainKeepsPhases(s, cap, first, u, role);
    DrainKeepsPhases(s, cap, first, u, Peer(role));
    Does(u, cap, role, PushClose(id));
    ls := first + [Do(role, PushClose(id))];
    RunJoin(s, cap, first, [Do(role, PushClose(id))]);
    CloseSent(u, Run(s, cap, ls), role, id);
  }

  lemma CloseSent(u: System, t: System, role: Role, id: nat)
    requires CloseInv(u) && Did(u, t, role, PushClose(id))
    ensures PhaseAt(t, role, id) == Some(Gone) && Closes(EndOf(t, role).out.sent, id) == 1
  {
    assert CloseAll(u, id);
    ClosesAppend(EndOf(u, role).out.sent, Frame(id, CLOSE, []), id);
  }

  /** Streams of the side are in the phases they were in. */
  predicate KeepsPhases(s: System, t: System, role: Role) {
    forall id :: id in EndOf(s, role).side.streams ==> PhaseAt(t, role, id) == PhaseAt(s, role, id)
  }

  /** The stream is over, or its own goroutines will end it: it was torn down, or its writer's current write fails. */
  predicate Ending(st: Stream) {
    || st.phase == Gone || st.phase == Closing || ((st.phase == Serving || st.phase == Dialing) && st.closed)
    || (st.phase == Serving && st.writing != [])
  }

  /** The step that takes an ending stream to the CLOSE it owes, or past it. */
  function LastStep(st: Stream, id: nat): Local {
    if st.phase == Dialing then DialOk(id) else WriterEnd(id)
  }

  /** What the last step of an ending stream does. */
  lemma LastStepTaken(s: System, t: System, role: Role, id: nat)
    requires CloseInv(s) && id in EndOf(s, role).side.streams
    requires Did(s, t, role, LastStep(EndOf(s, role).side.streams[id], id))
    requires var st := EndOf(s, role).side.streams[id]; st.phase == Serving || (st.phase == Dialing && st.closed)
    ensures var st := EndOf(s, role).side.streams[id];
            && PhaseAt(t, role, id) == Some(if st.peerInitiated then Gone else Closing)
            && Closes(EndOf(t, role).out.sent, id) == 0 && KeepsPhases(s, t, Peer(role))
  {
    assert CloseAll(s, id);
  }

  lemma Finishes(s: System, cap: nat, role: Role, id: nat) returns (ls: seq<Label>)
    requires Fine(s, cap) && id in EndOf(s, role).side.streams && Ending(EndOf(s, role).side.streams[id])
    ensures var t := Run(s, cap, ls);
            Fine(t, cap) && PhaseAt(t, role, id) == Some(Gone) && KeepsPhases(s, t, Peer(role))
    ensures var st, n := EndOf(s, role).side.streams[id], Closes(EndOf(Run(s, cap, ls), role).out.sent, id);
            st.phase == Serving ==> n == if st.peerInitiated then 0 else 1
  {
    var st := EndOf(s, role).side.streams[id];
    if st.phase == Gone {
      ls := [];
    } else if st.phase == Closing {
      ls := OwedCloseGoes(s, cap, role, id);
    } else {
      var m := LastStep(st, id);
      Does(s, cap, role, m);
      var u := Run(s, cap, [Do(role, m)]);
      LastStepTaken(s, u, role, id);
      ls := [Do(role, m)];
      if !st.peerInitiated {
        var rest := OwedCloseGoes(u, cap, role, id);
        ls := [Do(role, m)] + rest;
        RunJoin(s, cap, [Do(role, m)], rest);
      }
    }
  }

  /**
   From every reachable state with both ends open, a serving stream whose reader has ended gets through
   by its own writer and the wire, with exactly one CLOSE, or none if the peer ended the stream first.
   */
  lemma EndedReaderFinishes(cap: nat, ls: seq<Label>, role: Role, id: nat) returns (more: seq<Label>)
    requires cap > 0 && Open(Run(START, cap, ls))
    requires id in EndOf(Run(START, cap, ls), role).side.streams
    requires var st := EndOf(Run(START, cap, ls), role).side.streams[id]; st.phase == Serving && !st.reading
    ensures var s := Run(START, cap, ls); var t := Run(s, cap, more);
            && PhaseAt(t, role, id) == Some(Gone)
            && Closes(EndOf(t, role).out.sent, id) == if EndOf(s, role).side.streams[id].peerInitiated then 0 else 1
  {
    SoundReached(cap, ls);
    ReaderEndsStream(cap, ls, role, id);
    more := Finishes(Run(START, cap, ls), cap, role, id);
  }

  /** Once a stream is over on one side and nothing is under way, the other end of it is ending. */
  lemma FarEnds(s: System, cap: nat, role: Role, id: nat)
    requires Fine(s, cap) && Drained(s) && PhaseAt(s, role, id) == Some(Gone)
    requires id in EndOf(s, Peer(role)).side.streams
    ensures Ending(EndOf(s, Peer(role)).side.streams[id])
  {
    DrainedIsNotHalfOpen(s, cap, role, id);
    var st := EndOf(s, Peer(role)).side.streams[id];
    assert FarStream(EndOf(s, role).out.delivered, id, st);
    assert st.phase != Announcing by {
      if role == Pump {
        assert HasOpen(s.relay.out.delivered, id);
        HasOpenPrefix(s.relay.out.delivered, s.relay.out.sent, id);
        assert OpenAt(s.relay.side, s.relay.out.sent, id);
      }
    }
  }

  /** The end of a connection reaches both sides: no end of its stream is left behind. */
  lemma EndReachesBoth(cap: nat, ls: seq<Label>, role: Role, id: nat) returns (more: seq<Label>)
    requires cap > 0 && Open(Run(START, cap, ls))
    requires id in EndOf(Run(START, cap, ls), role).side.streams
    requires Ending(EndOf(Run(START, cap, ls), role).side.streams[id])
    ensures var s := Run(START, cap, ls); var t := Run(s, cap, more);
            && PhaseAt(t, role, id) == Some(Gone)
            && (PhaseAt(t, Peer(role), id) == None || PhaseAt(t, Peer(role), id) == Some(Gone))
  {
    var s := Run(START, cap, ls);
    SoundReached(cap, ls);
    var a := Finishes(s, cap, role, id);
    var u := Run(s, cap, a);
    var b := Drains(u, cap);
    var v := Run(u, cap, b);
    DrainKeepsPhases(u, cap, b, v, role);
    RunJoin(s, cap, a, b);
    more := a + b;
    if id in EndOf(v, Peer(role)).side.streams {
      FarEnds(v, cap, role, id);
      var c := Finishes(v, cap, Peer(role), id);
      assert PhaseAt(Run(v, cap, c), role, id) == PhaseAt(v, role, id) by {
        assert KeepsPhases(v, Run(v, cap, c), Peer(Peer(role)));
      }
      RunJoin(s, cap, a + b, c);
      more := a + b + c;
    }
  }

  // ---- after a shutdown ---------------------------------------------------------------------------

  lemma DoneRefusesOpen(s: Side, f: Frame, pick: bool)
    requires s.done
    ensures var t := Receive(s, f, pick);
            t.done && t.streams.Keys == s.streams.Keys
            && forall id | id in s.streams && !s.streams[id].Live() :: !t.streams[id].Live()
  {
  }

  /** After a shutdown the side adds no stream and revives none. */
  lemma ShutdownIsFinal(s: System, cap: nat, l: Label, role: Role)
    requires CanDo(s, cap, l) && EndOf(s, role).side.done
    ensures var a, b := EndOf(s, role).side, EndOf(Next(s, cap, l), role).side;
            b.done && b.streams.Keys == a.streams.Keys
            && forall id | id in a.streams && !a.streams[id].Live() :: !b.streams[id].Live()
  {
    if l.Do? && l.role == role {
      assert !l.m.Accept?;
    } else if l.Dispatch? && l.role != role {
      DoneRefusesOpen(EndOf(s, role).side, Decode(EndOf(s, l.role).out.acc).frame, l.pick);
    } else {
      assert EndOf(Next(s, cap, l), role).side == EndOf(s, role).side;
    }
  }

  /** What a goroutine of a stream does when its side has shut down: the reader first, then the others. */
  function Winding(st: Stream, id: nat): Local {
    if st.chunk != [] then DropData(id)
    else if st.reading then ReadEnd(id)
    else match st.phase
         case Announcing => AnnounceFail(id)
         case Dialing => DialFail(id)
         case Serving => WriterEnd(id)
         case Closing => SkipClose(id)
         case Gone => SkipClose(id)
  }

  /** How many such steps the stream is away from its end. */
  function Steps(st: Stream): nat {
    (if st.reading then 1 else 0)
    + match st.phase
      case Announcing => 1
      case Dialing => 2
      case Serving => 2
      case Closing => 1
      case Gone => 0
  }

  lemma WindsDown(e: End, id: nat)
    requires id in e.side.streams && e.side.done && NearAt(e.side, e.out.sent, id) && Steps(e.side.streams[id]) > 0
    ensures var m := Winding(e.side.streams[id], id);
            && CanStep(e, m) && Emitted(m, e.side.streams[id]) == None
            && Steps(NextStream(m, e.side.streams[id])) < Steps(e.side.streams[id])
  {
  }

  lemma Wound(s: System, t: System, role: Role, id: nat)
    requires id in EndOf(s, role).side.streams && EndOf(s, role).side.done
    requires var st := EndOf(s, role).side.streams[id]; var m := Winding(st, id);
             Did(s, t, role, m) && Emitted(m, st) == None && Steps(NextStream(m, st)) < Steps(st)
    ensures && EndOf(t, role).side.done && id in EndOf(t, role).side.streams
            && Steps(EndOf(t, role).side.streams[id]) < Steps(EndOf(s, role).side.streams[id])
            && EndOf(t, role).out == EndOf(s, role).out && EndOf(t, Peer(role)) == EndOf(s, Peer(role))
  {
  }

  lemma Winds(s: System, cap: nat, role: Role, id: nat)
    requires Sound(s, cap) && EndOf(s, role).side.done && id in EndOf(s, role).side.streams
    requires Steps(EndOf(s, role).side.streams[id]) > 0
    ensures var st := EndOf(s, role).side.streams[id]; var t := Run(s, cap, [Do(role, Winding(st, id))]);
            && Sound(t, cap) && EndOf(t, role).side.done && id in EndOf(t, role).side.streams
            && Steps(EndOf(t, role).side.streams[id]) < Steps(st)
            && EndOf(t, role).out == EndOf(s, role).out && EndOf(t, Peer(role)) == EndOf(s, Peer(role))
  {
    var m := Winding(EndOf(s, role).side.streams[id], id);
    assert NearAt(EndOf(s, role).side, EndOf(s, role).out.sent, id);
    WindsDown(EndOf(s, role), id);
    Does(s, cap, role, m);
    Wound(s, Run(s, cap, [Do(role, m)]), role, id);
  }

  /**
   Nobody is stranded by a shutdown: on a side that has shut down every stream can get through by its own
   goroutines alone, its reader included, without a frame more and whatever the tunnel does.
   */
  lemma {:induction false} ShutdownFinishes(s: System, cap: nat, role: Role, id: nat) returns (ls: seq<Label>)
    requires Sound(s, cap) && EndOf(s, role).side.done && id in EndOf(s, role).side.streams
    ensures var t := Run(s, cap, ls);
            && PhaseAt(t, role, id) == Some(Gone) && !EndOf(t, role).side.streams[id].reading
            && EndOf(t, role).out == EndOf(s, role).out && EndOf(t, Peer(role)) == EndOf(s, Peer(role))
    decreases Steps(EndOf(s, role).side.streams[id])
  {
    if Steps(EndOf(s, role).side.streams[id]) == 0 {
      ls := [];
    } else {
      var m := Winding(EndOf(s, role).side.streams[id], id);
      Winds(s, cap, role, id);
      var rest := ShutdownFinishes(Run(s, cap, [Do(role, m)]), cap, role, id);
      ls := [Do(role, m)] + rest;
      RunJoin(s, cap, [Do(role, m)], rest);
    }
  }

  lemma ShutsDown(s: System, cap: nat, role: Role)
    requires Sound(s, cap)
    ensures var t := Run(s, cap, [Do(role, Shutdown)]);
            && Sound(t, cap) && EndOf(t, role).side.done
            && EndOf(t, role).side.streams.Keys == EndOf(s, role).side.streams.Keys
  {
    Does(s, cap, role, Shutdown);
  }

  /** So from every reachable state: a shutdown of its side, if it has not happened yet, lets any stream get through. */
  lemma ReachedShutdownFinishes(cap: nat, ls: seq<Label>, role: Role, id: nat) returns (more: seq<Label>)
    requires id in EndOf(Run(START, cap, ls), role).side.streams
    ensures var t := Run(Run(START, cap, ls), cap, more);
            PhaseAt(t, role, id) == Some(Gone) && !EndOf(t, role).side.streams[id].reading
  {
    var s := Run(START, cap, ls);
    SoundReached(cap, ls);
    if EndOf(s, role).side.done {
      more := ShutdownFinishes(s, cap, role, id);
    } else {
      ShutsDown(s, cap, role);
      var rest := ShutdownFinishes(Run(s, cap, [Do(role, Shutdown)]), cap, role, id);
      more := [Do(role, Shutdown)] + rest;
      RunJoin(s, cap, [Do(role, Shutdown)], rest);
    }
  }

  // ---- a new connection opens --------------------------------------------------------------------

  /** A stream just connected on both sides: both readers run, nothing has been exchanged. */
  predicate Connected(st: Stream) {
    st == NewStream(Serving).(reading := true)
  }

  lemma Announced(s: System, cap: nat) returns (ls: seq<Label>)
    requires Fine(s, cap) && Drained(s) && CanStep(s.relay, Accept)
    ensures var t, id := Run(s, cap, ls), s.relay.side.lastId + 1;
            && Fine(t, cap) && id in t.relay.side.streams && Connected(t.relay.side.streams[id])
            && t.relay.out.sent == s.relay.out.sent + [Frame(id, OPEN, [])]
            && t.relay.out.delivered == s.relay.out.sent && t.pump == s.pump
  {
    var id := s.relay.side.lastId + 1;
    EmptyIsDelivered(s.relay.out, cap);
    Does(s, cap, Relay, Accept);
    var u := Run(s, cap, [Do(Relay, Accept)]);
    Does(u, cap, Relay, Announce(id));
    ls := [Do(Relay, Accept)] + [Do(Relay, Announce(id))];
    RunJoin(s, cap, [Do(Relay, Accept)], [Do(Relay, Announce(id))]);
  }

  /** The OPEN alone arrives, and the pump has a fresh stream to dial for. */
  lemma OpenArrives(s: System, t: System, id: nat, cap: nat)
    requires Inv(s, cap) && Open(s) && Arrived(s, t) && Empty(s.pump.out)
    requires UnderWay(s.relay.out) == [Frame(id, OPEN, [])] && id !in s.pump.side.streams
    ensures id in t.pump.side.streams && t.pump.side.streams[id] == NewStream(Dialing)
    ensures t.relay.side == s.relay.side
  {
    EmptyIsDelivered(s.pump.out, cap);
    var f := Frame(id, OPEN, []);
    assert [f][0] == f && [f][1..] == [];
    assert ReceiveAll(s.pump.side, [f]) == Receive(s.pump.side, f, true) by {
      assert ReceiveAll(Receive(s.pump.side, f, true), []) == Receive(s.pump.side, f, true);
    }
    assert UnderWay(s.pump.out) == [];
  }

  /** An id not handed out yet is unknown to the pump. */
  lemma PumpHasNot(s: System, cap: nat)
    requires Inv(s, cap)
    ensures s.relay.side.lastId + 1 !in s.pump.side.streams
  {
    var id := s.relay.side.lastId + 1;
    assert OpenAt(s.relay.side, s.relay.out.sent, id);
    if HasOpen(s.relay.out.delivered, id) { HasOpenPrefix(s.relay.out.delivered, s.relay.out.sent, id); }
  }

  /** Announced and carried over: the pump has a fresh stream to dial for. */
  lemma Carries(s: System, cap: nat) returns (ls: seq<Label>)
    requires Fine(s, cap) && Drained(s) && CanStep(s.relay, Accept)
    ensures var t, id := Run(s, cap, ls), s.relay.side.lastId + 1;
            && Fine(t, cap) && Drained(t)
            && id in t.relay.side.streams && Connected(t.relay.side.streams[id])
            && id in t.pump.side.streams && t.pump.side.streams[id] == NewStream(Dialing)
  {
    var id := s.relay.side.lastId + 1;
    PumpHasNot(s, cap);
    var a := Announced(s, cap);
    var u := Run(s, cap, a);
    assert UnderWay(u.relay.out) == [Frame(id, OPEN, [])];
    var b := Drains(u, cap);
    OpenArrives(u, Run(u, cap, b), id, cap);
    RunJoin(s, cap, a, b);
    ls := a + b;
  }

  lemma Dials(s: System, cap: nat, id: nat) returns (ls: seq<Label>)
    requires Fine(s, cap) && id in s.pump.side.streams && s.pump.side.streams[id] == NewStream(Dialing)
    ensures var t := Run(s, cap, ls);
            && Fine(t, cap) && t.relay == s.relay && t.pump.out == s.pump.out
            && id in t.pump.side.streams && Connected(t.pump.side.streams[id])
  {
    Does(s, cap, Pump, DialOk(id));
    ls := [Do(Pump, DialOk(id))];
  }

  /** Both ends are open, nothing is under way, and the relay's accept loop is waiting. */
  predicate Quiet(s: System) {
    Open(s) && Drained(s) && CanStep(s.relay, Accept)
  }

  predicate ConnectedOn(t: System, id: nat) {
    && Open(t) && Drained(t)
    && id in t.relay.side.streams && Connected(t.relay.side.streams[id])
    && id in t.pump.side.streams && Connected(t.pump.side.streams[id])
  }

  lemma OpensFrom(s: System, cap: nat) returns (ls: seq<Label>)
    requires Fine(s, cap) && Quiet(s)
    ensures ConnectedOn(Run(s, cap, ls), s.relay.side.lastId + 1)
  {
    var a := Carries(s, cap);
    var b := Dials(Run(s, cap, a), cap, s.relay.side.lastId + 1);
    RunJoin(s, cap, a, b);
    ls := a + b;
  }

  /**
   A new connection opens: with both ends open, nothing under way and no announcement pending, an accepted
   adapter connection ends up connected to a dialled one, under the next id, with both readers running.
   */
  lemma StreamOpens(cap: nat, ls: seq<Label>) returns (more: seq<Label>)
    requires cap > 0 && Quiet(Run(START, cap, ls))
    ensures var s := Run(START, cap, ls); ConnectedOn(Run(s, cap, more), s.relay.side.lastId + 1)
  {
    SoundReached(cap, ls);
    more := OpensFrom(Run(START, cap, ls), cap);
  }

  // ---- bytes get through ----------------------------------------------------------------------------

  /** The near reader waits for bytes; the far end serves. */
  predicate Flows(s: System, role: Role, id: nat) {
    var near, far := EndOf(s, role).side.streams, EndOf(s, Peer(role)).side.streams;
    && id in near && near[id].reading && near[id].chunk == [] && !near[id].closed
    && id in far && far[id].phase == Serving && far[id].Live()
  }

  /** The writer has nothing left to write. */
  predicate Flushed(st: Stream) {
    st.queue == [] && st.writing == []
  }

  /** Only the stream's writer moved. */
  predicate WriterOnly(s: System, t: System, role: Role, id: nat) {
    && EndOf(t, Peer(role)) == EndOf(s, Peer(role)) && EndOf(t, role).out == EndOf(s, role).out
    && id in EndOf(s, role).side.streams && id in EndOf(t, role).side.streams
    && var a, b := EndOf(s, role).side.streams[id], EndOf(t, role).side.streams[id];
      b == a.(queue := b.queue, writing := b.writing, written := b.written)
  }

  lemma WroteRest(s: System, t: System, role: Role, id: nat)
    requires id in EndOf(s, role).side.streams
    requires Did(s, t, role, WriteConn(id, |EndOf(s, role).side.streams[id].writing|))
    ensures WriterOnly(s, t, role, id) && EndOf(t, role).side.streams[id].writing == []
    ensures EndOf(t, role).side.streams[id].queue == EndOf(s, role).side.streams[id].queue
  {
  }

  /** The rest of the current write goes out. */
  lemma WritesRest(s: System, cap: nat, role: Role, id: nat) returns (ls: seq<Label>)
    requires Fine(s, cap) && id in EndOf(s, role).side.streams
    requires var st := EndOf(s, role).side.streams[id]; st.phase == Serving && st.Live()
    ensures var t := Run(s, cap, ls);
            && Fine(t, cap) && WriterOnly(s, t, role, id) && EndOf(t, role).side.streams[id].writing == []
            && EndOf(t, role).side.streams[id].queue == EndOf(s, role).side.streams[id].queue
  {
    var st := EndOf(s, role).side.streams[id];
    if st.writing == [] {
      ls := [];
    } else {
      Does(s, cap, role, WriteConn(id, |st.writing|));
      ls := [Do(role, WriteConn(id, |st.writing|))];
      WroteRest(s, Run(s, cap, ls), role, id);
    }
  }

  lemma {:induction false} Flushes(s: System, cap: nat, role: Role, id: nat) returns (ls: seq<Label>)
    requires Fine(s, cap) && id in EndOf(s, role).side.streams
    requires var st := EndOf(s, role).side.streams[id]; st.phase == Serving && st.Live()
    ensures var t := Run(s, cap, ls);
            Fine(t, cap) && WriterOnly(s, t, role, id) && Flushed(EndOf(t, role).side.streams[id])
    decreases |EndOf(s, role).side.streams[id].queue|
  {
    ls := WritesRest(s, cap, role, id);
    var u := Run(s, cap, ls);
    if EndOf(u, role).side.streams[id].queue != [] {
      Does(u, cap, role, TakeChunk(id));
      var v := Run(u, cap, [Do(role, TakeChunk(id))]);
      var rest := Flushes(v, cap, role, id);
      RunJoin(s, cap, ls, [Do(role, TakeChunk(id))]);
      RunJoin(s, cap, ls + [Do(role, TakeChunk(id))], rest);
      ls := ls + [Do(role, TakeChunk(id))] + rest;
    }
  }

  /** The reader reads the bytes and queues them for the peer. */
  lemma Sends(s: System, cap: nat, role: Role, id: nat, bytes: seq<byte>) returns (ls: seq<Label>)
    requires Fine(s, cap) && Drained(s) && Flows(s, role, id) && 0 < |bytes| <= READ_BUFFER
    ensures var t, f := Run(s, cap, ls), Frame(id, DATA, bytes);
            && Fine(t, cap) && Flows(t, role, id) && EndOf(t, Peer(role)) == EndOf(s, Peer(role))
            && EndOf(t, role).out.sent == EndOf(s, role).out.sent + [f]
            && EndOf(t, role).out.delivered == EndOf(s, role).out.sent
            && EndOf(t, role).side.streams[id].read == EndOf(s, role).side.streams[id].read + bytes
  {
    EmptyIsDelivered(EndOf(s, role).out, cap);
    Does(s, cap, role, ReadConn(id, bytes));
    var u := Run(s, cap, [Do(role, ReadConn(id, bytes))]);
    Does(u, cap, role, PushData(id));
    ls := [Do(role, ReadConn(id, bytes))] + [Do(role, PushData(id))];
    RunJoin(s, cap, [Do(role, ReadConn(id, bytes))], [Do(role, PushData(id))]);
  }

  /** The data alone arrives, and finds room in the queue. */
  lemma DataArrives(s: System, t: System, role: Role, id: nat, bytes: seq<byte>, cap: nat)
    requires Inv(s, cap) && Arrived(s, t) && Flows(s, role, id) && Empty(EndOf(s, Peer(role)).out)
    requires UnderWay(EndOf(s, role).out) == [Frame(id, DATA, bytes)]
    requires Flushed(EndOf(s, Peer(role)).side.streams[id])
    ensures Flows(t, role, id) && EndOf(t, role).side == EndOf(s, role).side
  {
    EmptyIsDelivered(EndOf(s, Peer(role)).out, cap);
    var f, far := Frame(id, DATA, bytes), EndOf(s, Peer(role)).side;
    assert [f][0] == f && [f][1..] == [];
    assert ReceiveAll(far, [f]) == Receive(far, f, true) by {
      assert ReceiveAll(Receive(far, f, true), []) == Receive(far, f, true);
    }
    assert UnderWay(EndOf(s, Peer(role)).out) == [];
  }

  /** Nothing under way and nothing left to write: everything read near has been written far. */
  lemma FlushedIsWritten(s: System, cap: nat, role: Role, id: nat)
    requires Inv(s, cap) && Empty(EndOf(s, role).out) && Flows(s, role, id)
    requires Flushed(EndOf(s, Peer(role)).side.streams[id])
    ensures EndOf(s, Peer(role)).side.streams[id].written == EndOf(s, role).side.streams[id].read
  {
    var e, far := EndOf(s, role), EndOf(s, Peer(role)).side;
    EmptyIsDelivered(e.out, cap);
    assert NearAt(e.side, e.out.sent, id) && FarStream(e.out.delivered, id, far.streams[id]);
  }

  /** With the far writer idle the bytes are read, carried over and queued. */
  lemma Transfers(s: System, cap: nat, role: Role, id: nat, bytes: seq<byte>) returns (ls: seq<Label>)
    requires Fine(s, cap) && Drained(s) && Flows(s, role, id) && 0 < |bytes| <= READ_BUFFER
    requires Flushed(EndOf(s, Peer(role)).side.streams[id])
    ensures var t := Run(s, cap, ls);
            && Fine(t, cap) && Drained(t) && Flows(t, role, id)
            && EndOf(t, role).side.streams[id].read == EndOf(s, role).side.streams[id].read + bytes
  {
    var a := Sends(s, cap, role, id, bytes);
    var u := Run(s, cap, a);
    assert UnderWay(EndOf(u, role).out) == [Frame(id, DATA, bytes)];
    var b := Drains(u, cap);
    DataArrives(u, Run(u, cap, b), role, id, bytes, cap);
    RunJoin(s, cap, a, b);
    ls := a + b;
  }

  /** A writer's steps keep the stream flowing and the tunnel empty. */
  lemma WriterKeepsFlow(s: System, t: System, role: Role, id: nat)
    requires Drained(s) && Flows(s, role, id) && WriterOnly(s, t, Peer(role), id)
    ensures Drained(t) && Flows(t, role, id) && EndOf(t, role) == EndOf(s, role)
  {
  }

  /**
   Bytes get through: from every reachable state with both ends open and nothing under way, whatever the
   reader of a live stream reads next can be written on the other side, after everything read before.
   */
  lemma BytesGetThrough(cap: nat, ls: seq<Label>, role: Role, id: nat, bytes: seq<byte>) returns (more: seq<Label>)
    requires cap > 0 && Open(Run(START, cap, ls)) && Drained(Run(START, cap, ls))
    requires Flows(Run(START, cap, ls), role, id) && 0 < |bytes| <= READ_BUFFER
    ensures var s := Run(START, cap, ls); var t := Run(s, cap, more);
            && id in EndOf(t, Peer(role)).side.streams
            && EndOf(t, Peer(role)).side.streams[id].written == EndOf(s, role).side.streams[id].read + bytes
  {
    var s := Run(START, cap, ls);
    SoundReached(cap, ls);
    var a := Flushes(s, cap, Peer(role), id);
    var u := Run(s, cap, a);
    WriterKeepsFlow(s, u, role, id);
    var b := Transfers(u, cap, role, id, bytes);
    var v := Run(u, cap, b);
    var c := Flushes(v, cap, Peer(role), id);
    var w := Run(v, cap, c);
    WriterKeepsFlow(v, w, role, id);
    FlushedIsWritten(w, cap, role, id);
    RunJoin(s, cap, a, b);
    RunJoin(s, cap, a + b, c);
    more := a + b + c;
  }
}
