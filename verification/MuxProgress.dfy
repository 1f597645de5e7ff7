/**
 The multiplexer cannot deadlock: as long as frames are queued or in flight, the writers and
 the demux loops alone make progress, whatever the connections do.
 */
module MuxProgress {
  import opened Basics
  import opened Frame
  import opened Tube
  import opened Mux
  import opened MuxIntegrity
  import opened MuxSafety

  /**
   Steps of the writer and demux goroutines. The side that acts has not shut down, so the
   goroutine has not exited: the writer acts for the sending side, the demux for the other.
   */
  predicate Internal(s: System, l: Label) {
    match l
    case Do(_, _) => false
    case Wire(role, move) => !EndOf(s, if move.Pull? then Peer(role) else role).side.done
    case Dispatch(role, _) => !EndOf(s, Peer(role)).side.done
  }

  function TotalLoad(s: System): nat {
    Load(s.relay.out) + Load(s.pump.out)
  }

  /** Nothing is queued or in flight in either direction. */
  predicate Drained(s: System) {
    Empty(s.relay.out) && Empty(s.pump.out)
  }

  predicate Open(s: System) {
    !s.relay.side.done && !s.pump.side.done
  }

  lemma TubeLowers(t: Tube, cap: nat, m: Move)
    requires TubeInv(t, cap) && Enabled(t, cap, m)
    ensures Load(Moved(t, cap, m)) < Load(t)
  {
    MoveLowersLoad(t, cap, m);
  }

  /** Every internal step lowers the load, so internal steps alone never go on forever. */
  lemma InternalLowersLoad(s: System, cap: nat, l: Label)
    requires Inv(s, cap) && CanDo(s, cap, l) && Internal(s, l)
    ensures TotalLoad(Next(s, cap, l)) < TotalLoad(s)
  {
    assert TubeInv(EndOf(s, l.role).out, cap);
    TubeLowers(EndOf(s, l.role).out, cap, if l.Wire? then l.move else Deliver);
  }

  function MoveLabel(role: Role, move: Move): Label {
    if move.Deliver? then Dispatch(role, true) else Wire(role, move)
  }

  /** The direction to move: the relay's, unless it is empty. */
  function Busy(s: System): Role {
    if Empty(s.relay.out) then Pump else Relay
  }

  function NextInternal(s: System): Label {
    MoveLabel(Busy(s), NextMove(EndOf(s, Busy(s)).out))
  }

  lemma LabelIsEnabled(s: System, cap: nat, role: Role, move: Move)
    requires Open(s) && Enabled(EndOf(s, role).out, cap, move)
    ensures CanDo(s, cap, MoveLabel(role, move)) && Internal(s, MoveLabel(role, move))
  {
  }

  lemma NextIsEnabled(s: System, cap: nat)
    requires TubeInv(s.relay.out, cap) && TubeInv(s.pump.out, cap) && Open(s) && !Drained(s) && cap > 0
    ensures CanDo(s, cap, NextInternal(s)) && Internal(s, NextInternal(s))
  {
    var t := EndOf(s, Busy(s)).out;
    NeverStuck(t, cap);
    LabelIsEnabled(s, cap, Busy(s), NextMove(t));
  }

  /** No reachable deadlock: with both ends open and anything queued or in flight, an internal step is enabled. */
  lemma NoDeadlock(s: System, cap: nat)
    requires Inv(s, cap) && Open(s) && !Drained(s) && cap > 0
    ensures CanDo(s, cap, NextInternal(s)) && Internal(s, NextInternal(s))
    ensures TotalLoad(Next(s, cap, NextInternal(s))) < TotalLoad(s)
  {
    NextIsEnabled(s, cap);
    InternalLowersLoad(s, cap, NextInternal(s));
  }

  /** No connection has been read or written, and no goroutine of a stream has moved. */
  predicate Untouched(a: Side, b: Side) {
    a.done == b.done && forall id | id in a.streams :: id in b.streams && SameGoroutines(a.streams[id], b.streams[id])
  }

  predicate SameGoroutines(x: Stream, y: Stream) {
    y == x.(queue := y.queue, closed := y.closed, peerInitiated := y.peerInitiated)
  }

  lemma ReceiveUntouched(s: Side, f: Frame, pick: bool)
    requires f.kind == OPEN && s.role == Pump ==> f.id !in s.streams
    ensures Untouched(s, Receive(s, f, pick))
  {
    if f.kind == DATA {
      assert Untouched(s, DispatchData(s, f.id, f.payload, pick));
    } else if f.kind == CLOSE {
      assert Untouched(s, PeerClose(s, f.id));
    } else if f.kind == OPEN && s.role == Pump {
      assert Untouched(s, OpenStream(s, f.id));
    }
  }

  lemma DispatchUntouched(s: System, cap: nat, role: Role, pick: bool)
    requires Inv(s, cap) && CanDo(s, cap, Dispatch(role, pick))
    ensures var near, far := EndOf(s, role), EndOf(s, Peer(role));
            Untouched(far.side, Receive(far.side, Decode(near.out.acc).frame, pick))
  {
    var out := EndOf(s, role).out;
    DeliverKeeps(out, cap);
    var f := out.sent[|out.delivered|];
    if f.kind == OPEN && role == Relay { OpenIsNew(s, cap, f); }
    ReceiveUntouched(EndOf(s, Peer(role)).side, f, pick);
  }

  lemma SidesAfter(s: System, cap: nat, l: Label)
    requires CanDo(s, cap, l) && !l.Do?
    ensures var t, far := Next(s, cap, l), EndOf(s, Peer(l.role)).side;
            && EndOf(t, l.role).side == EndOf(s, l.role).side
            && EndOf(t, Peer(l.role)).side ==
                 if l.Dispatch? then Receive(far, Decode(EndOf(s, l.role).out.acc).frame, l.pick) else far
  {
  }

  lemma UntouchedSelf(s: Side)
    ensures Untouched(s, s)
  {
  }

  lemma InternalUntouched(s: System, cap: nat, l: Label)
    requires Inv(s, cap) && CanDo(s, cap, l) && Internal(s, l)
    ensures var t := Next(s, cap, l); Untouched(s.relay.side, t.relay.side) && Untouched(s.pump.side, t.pump.side)
  {
    var t, near, far := Next(s, cap, l), EndOf(s, l.role).side, EndOf(s, Peer(l.role)).side;
    SidesAfter(s, cap, l);
    assert Untouched(near, EndOf(t, l.role).side) by { UntouchedSelf(near); }
    assert Untouched(far, EndOf(t, Peer(l.role)).side) by {
      if l.Dispatch? { DispatchUntouched(s, cap, l.role, l.pick); } else { UntouchedSelf(far); }
    }
  }

  predicate InternalRun(s: System, cap: nat, ls: seq<Label>)
    decreases |ls|
  {
    ls == [] || (CanDo(s, cap, ls[0]) && Internal(s, ls[0]) && InternalRun(Next(s, cap, ls[0]), cap, ls[1..]))
  }

  lemma {:induction false} RunFrom(s: System, cap: nat, l: Label, ls: seq<Label>)
    requires CanDo(s, cap, l)
    ensures Run(s, cap, [l] + ls) == Run(Next(s, cap, l), cap, ls)
  {
    if ls == [] {
      assert [l] + ls == [l] && Front([l]) == [];
    } else {
      assert Front([l] + ls) == [l] + Front(ls);
      RunFrom(s, cap, l, Front(ls));
    }
  }

  /** One internal step towards an empty tunnel. */
  lemma DrainStep(s: System, cap: nat)
    requires Inv(s, cap) && Open(s) && !Drained(s) && cap > 0
    ensures var l := NextInternal(s);
            && CanDo(s, cap, l) && Internal(s, l)
            && var t := Next(s, cap, l);
              && Inv(t, cap) && Open(t) && TotalLoad(t) < TotalLoad(s)
              && Untouched(s.relay.side, t.relay.side) && Untouched(s.pump.side, t.pump.side)
  {
    NoDeadlock(s, cap);
    StepKeeps(s, cap, NextInternal(s));
    InternalUntouched(s, cap, NextInternal(s));
  }

  lemma UntouchedTransitive(a: Side, b: Side, c: Side)
    requires Untouched(a, b) && Untouched(b, c)
    ensures Untouched(a, c)
  {
    forall id | id in a.streams ensures id in c.streams && SameGoroutines(a.streams[id], c.streams[id]) {
      assert SameGoroutines(a.streams[id], b.streams[id]) && SameGoroutines(b.streams[id], c.streams[id]);
    }
  }

  /** The frames queued or in flight. */
  function UnderWay(t: Tube): seq<Frame>
    requires t.delivered <= t.sent
  {
    t.sent[|t.delivered|..]
  }

  /** A side after a list of frames has been dispatched to it. */
  function ReceiveAll(s: Side, fs: seq<Frame>): Side
    decreases |fs|
  {
    if fs == [] then s else ReceiveAll(Receive(s, fs[0], true), fs[1..])
  }

  /** t has dispatched to each side the frames that were under way to it in s, and nothing new was sent. */
  predicate Arrived(s: System, t: System)
    requires s.relay.out.delivered <= s.relay.out.sent && s.pump.out.delivered <= s.pump.out.sent
  {
    && t.pump.side == ReceiveAll(s.pump.side, UnderWay(s.relay.out))
    && t.relay.side == ReceiveAll(s.relay.side, UnderWay(s.pump.out))
    && t.relay.out.sent == s.relay.out.sent && t.pump.out.sent == s.pump.out.sent
  }

  lemma DeliverReceives(t: Tube, far: Side, cap: nat)
    requires TubeInv(t, cap) && Enabled(t, cap, Deliver)
    ensures var u := Moved(t, cap, Deliver);
            && u.sent == t.sent && u.delivered <= t.sent && t.delivered <= t.sent
            && ReceiveAll(Receive(far, Decode(t.acc).frame, true), UnderWay(u)) == ReceiveAll(far, UnderWay(t))
  {
    DeliverKeeps(t, cap);
    var u := Moved(t, cap, Deliver);
    assert UnderWay(u) == UnderWay(t)[1..] && UnderWay(t)[0] == Decode(t.acc).frame;
  }

  /** A step of the drain leaves the same frames to arrive. */
  lemma StepReceives(s: System, cap: nat, role: Role)
    requires Inv(s, cap) && CanDo(s, cap, NextInternal(s)) && Busy(s) == role
    ensures var t, near, far := Next(s, cap, NextInternal(s)), EndOf(s, role), EndOf(s, Peer(role));
            && EndOf(t, role).side == near.side && EndOf(t, Peer(role)).out == far.out
            && EndOf(t, role).out.sent == near.out.sent && EndOf(t, role).out.delivered <= near.out.sent
            && ReceiveAll(EndOf(t, Peer(role)).side, UnderWay(EndOf(t, role).out))
                 == ReceiveAll(far.side, UnderWay(near.out))
  {
    var near, far, move := EndOf(s, role).out, EndOf(s, Peer(role)).side, NextMove(EndOf(s, role).out);
    if move.Deliver? { DeliverReceives(near, far, cap); }
  }

  ghost predicate DrainsTo(s: System, cap: nat, ls: seq<Label>, t: System) {
    && InternalRun(s, cap, ls) && |ls| <= TotalLoad(s)
    && s.relay.out.delivered <= s.relay.out.sent && s.pump.out.delivered <= s.pump.out.sent && Arrived(s, t)
    && t == Run(s, cap, ls) && Drained(t) && HasRoom(t.relay.out) && HasRoom(t.pump.out)
    && Untouched(s.relay.side, t.relay.side) && Untouched(s.pump.side, t.pump.side)
  }

  lemma DrainsFirst(s: System, cap: nat, l: Label, ls: seq<Label>, t: System)
    requires CanDo(s, cap, l) && Internal(s, l) && DrainsTo(Next(s, cap, l), cap, ls, t)
    requires s.relay.out.delivered <= s.relay.out.sent && s.pump.out.delivered <= s.pump.out.sent && Arrived(s, t)
    requires TotalLoad(Next(s, cap, l)) < TotalLoad(s)
    requires Untouched(s.relay.side, Next(s, cap, l).relay.side) && Untouched(s.pump.side, Next(s, cap, l).pump.side)
    ensures DrainsTo(s, cap, [l] + ls, t)
  {
    var n := Next(s, cap, l);
    UntouchedTransitive(s.relay.side, n.relay.side, t.relay.side);
    UntouchedTransitive(s.pump.side, n.pump.side, t.pump.side);
    assert ([l] + ls)[1..] == ls;
    RunFrom(s, cap, l, ls);
  }

  lemma EmptyIsDelivered(t: Tube, cap: nat)
    requires TubeInv(t, cap) && Empty(t)
    ensures t.delivered == t.sent
  {
    assert Bytes(t) == [];
    assert t.sent == t.delivered + t.sent[|t.delivered|..];
  }

  /**
   From any state with both ends open, the writers and the demux loops alone can drain both
   directions, with every connection stuck: each side has been handed exactly the frames under way
   to it, in order, and every producer has room again.
   */
  lemma {:induction false} Drain(s: System, cap: nat) returns (ls: seq<Label>)
    requires Inv(s, cap) && Open(s) && cap > 0
    ensures DrainsTo(s, cap, ls, Run(s, cap, ls))
    decreases TotalLoad(s)
  {
    if Drained(s) {
      ls := [];
      EmptyIsDelivered(s.relay.out, cap);
      EmptyIsDelivered(s.pump.out, cap);
    } else {
      var l := NextInternal(s);
      DrainStep(s, cap);
      StepReceives(s, cap, Busy(s));
      var rest := Drain(Next(s, cap, l), cap);
      DrainsFirst(s, cap, l, rest, Run(Next(s, cap, l), cap, rest));
      ls := [l] + rest;
    }
  }

  /** A drain leaves both ends open and every stream where it is. */
  lemma DrainKeepsPhases(s: System, cap: nat, ls: seq<Label>, t: System, role: Role)
    requires DrainsTo(s, cap, ls, t)
    ensures EndOf(t, role).side.done == EndOf(s, role).side.done
    ensures forall id | id in EndOf(s, role).side.streams ::
              id in EndOf(t, role).side.streams
              && SameGoroutines(EndOf(s, role).side.streams[id], EndOf(t, role).side.streams[id])
  {
  }

  /** No internal run is longer than the load it starts from. */
  lemma {:induction false} InternalRunsEnd(s: System, cap: nat, ls: seq<Label>)
    requires Inv(s, cap) && InternalRun(s, cap, ls)
    ensures |ls| <= TotalLoad(s)
    decreases |ls|
  {
    if ls != [] {
      InternalLowersLoad(s, cap, ls[0]);
      StepKeeps(s, cap, ls[0]);
      InternalRunsEnd(Next(s, cap, ls[0]), cap, ls[1..]);
    }
  }

  /** Every reachable state with both ends open and frames under way has such a step. */
  lemma NoReachableDeadlock(cap: nat, ls: seq<Label>)
    requires cap > 0
    ensures var s := Run(START, cap, ls);
            Open(s) && !Drained(s) ==>
              exists l :: CanDo(s, cap, l) && Internal(s, l) && TotalLoad(Next(s, cap, l)) < TotalLoad(s)
  {
    Reached(cap, ls);
    var s := Run(START, cap, ls);
    if Open(s) && !Drained(s) {
      NoDeadlock(s, cap);
    }
  }
}
