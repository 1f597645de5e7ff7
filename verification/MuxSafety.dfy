/** Per-stream integrity of the multiplexer over whole runs. */
module MuxSafety {
  import opened Basics
  import opened Frame
  import opened Tube
  import opened Mux
  import opened MuxIntegrity

  // ---- the tubes -----------------------------------------------------------------------------

  lemma NearEncodable(e: End)
    requires Near(e.side, e.out.sent)
    ensures Encodable(e)
  {
    forall id | id in e.side.streams ensures id < WORD && |e.side.streams[id].chunk| <= READ_BUFFER {
      assert NearAt(e.side, e.out.sent, id);
    }
  }

  lemma WireKeeps(s: System, cap: nat, role: Role, move: Move)
    requires Inv(s, cap) && CanDo(s, cap, Wire(role, move))
    ensures Inv(Next(s, cap, Wire(role, move)), cap)
  {
    MoveKeeps(EndOf(s, role).out, cap, move);
  }

  // ---- the goroutines of the relay and of the pump -------------------------------------------------

  /** A stream id not handed out yet has received nothing. */
  lemma FreshIdIsSilent(s: System, cap: nat, id: nat)
    requires Inv(s, cap) && id > s.relay.side.lastId
    ensures Data(s.pump.out.delivered, id) == []
  {
    assert OpenAt(s.relay.side, s.relay.out.sent, id) && NearAt(s.pump.side, s.pump.out.sent, id);
    if HasOpen(s.relay.out.delivered, id) { HasOpenPrefix(s.relay.out.delivered, s.relay.out.sent, id); }
    assert id !in s.pump.side.streams;
    DataPrefix(s.pump.out.delivered, s.pump.out.sent, id);
  }

  lemma RelayStepKeeps(s: System, cap: nat, m: Local)
    requires Inv(s, cap) && CanDo(s, cap, Do(Relay, m))
    ensures Inv(Next(s, cap, Do(Relay, m)), cap)
  {
    var e, seen := s.relay, s.pump.out.delivered;
    TubeStep(e, m, cap);
    if m.Accept? {
      FreshIdIsSilent(s, cap, e.side.lastId + 1);
      AcceptKeeps(e, seen);
    } else if m.Shutdown? {
      ShutKeeps(e, seen);
      ShutKeepsOrder(e.side, e.out.sent);
    } else {
      NearStep(e, m);
      FarStep(e, m, seen);
      OrderStep(e, m);
    }
  }

  /** Pump streams are added by OPEN frames alone. */
  lemma KnownStep(e: End, m: Local, delivered: seq<Frame>)
    requires Opened(e.side, delivered) && CanStep(e, m) && Encodable(e) && !m.Accept?
    ensures Opened(LocalStep(e, m).side, delivered)
  {
    var t := LocalStep(e, m).side;
    assert t.streams.Keys == e.side.streams.Keys && (e.side.done ==> t.done);
  }

  lemma PumpStepKeeps(s: System, cap: nat, m: Local)
    requires Inv(s, cap) && CanDo(s, cap, Do(Pump, m))
    ensures Inv(Next(s, cap, Do(Pump, m)), cap)
  {
    var e, seen := s.pump, s.relay.out.delivered;
    TubeStep(e, m, cap);
    KnownStep(e, m, seen);
    if m.Shutdown? {
      ShutKeeps(e, seen);
    } else {
      NearStep(e, m);
      FarStep(e, m, seen);
    }
  }

  // ---- the two demux loops ---------------------------------------------------------------------------

  lemma OpenedOnce(sent: seq<Frame>, k: nat)
    requires FramesInOrder(sent) && k < |sent| && sent[k].kind == OPEN
    ensures !HasOpen(sent[..k], sent[k].id)
  {
    forall g | g in sent[..k] ensures !(g.kind == OPEN && g.id == sent[k].id) {
      var i :| 0 <= i < k && sent[i] == g;
    }
  }

  /** The second OPEN of a stream never comes: when one arrives, the pump has not seen the stream. */
  lemma OpenIsNew(s: System, cap: nat, f: Frame)
    requires Inv(s, cap) && f.kind == OPEN
    requires |s.relay.out.delivered| < |s.relay.out.sent| && f == s.relay.out.sent[|s.relay.out.delivered|]
    ensures f.id !in s.pump.side.streams && Data(s.relay.out.delivered, f.id) == []
  {
    var seen, sent := s.relay.out.delivered, s.relay.out.sent;
    assert seen == sent[..|seen|];
    OpenedOnce(sent, |seen|);
    NoDataBeforeOpen(sent, seen, f.id);
  }

  lemma ToPumpKeeps(s: System, cap: nat, pick: bool)
    requires Inv(s, cap) && CanDo(s, cap, Dispatch(Relay, pick))
    ensures Inv(Next(s, cap, Dispatch(Relay, pick)), cap)
  {
    DeliverKeeps(s.relay.out, cap);
    var seen, f := s.relay.out.delivered, s.relay.out.sent[|s.relay.out.delivered|];
    assert Proper(f);
    if f.kind == OPEN { OpenIsNew(s, cap, f); }
    ReceiveFar(s.pump.side, seen, f, pick);
    ReceiveNear(s.pump.side, s.pump.out.sent, f, pick);
    ReceiveKnown(s.pump.side, seen, f, pick);
  }

  lemma ToRelayKeeps(s: System, cap: nat, pick: bool)
    requires Inv(s, cap) && CanDo(s, cap, Dispatch(Pump, pick))
    ensures Inv(Next(s, cap, Dispatch(Pump, pick)), cap)
  {
    DeliverKeeps(s.pump.out, cap);
    var seen, f := s.pump.out.delivered, s.pump.out.sent[|s.pump.out.delivered|];
    assert Proper(f);
    ReceiveFar(s.relay.side, seen, f, pick);
    ReceiveNear(s.relay.side, s.relay.out.sent, f, pick);
    ReceiveOrder(s.relay.side, s.relay.out.sent, f, pick);
  }

  lemma StepKeeps(s: System, cap: nat, l: Label)
    requires Inv(s, cap) && CanDo(s, cap, l)
    ensures Inv(Next(s, cap, l), cap)
  {
    match l
    case Do(Relay, m) => RelayStepKeeps(s, cap, m);
    case Do(Pump, m) => PumpStepKeeps(s, cap, m);
    case Wire(role, move) => WireKeeps(s, cap, role, move);
    case Dispatch(Relay, pick) => ToPumpKeeps(s, cap, pick);
    case Dispatch(Pump, pick) => ToRelayKeeps(s, cap, pick);
  }

  lemma StartTubes(cap: nat)
    ensures TubeInv(START.relay.out, cap) && TubeInv(START.pump.out, cap)
    ensures START.relay.out.sent == [Frame(0, READY, [])] && START.relay.out.delivered == []
    ensures START.pump.out.sent == [] && START.pump.out.delivered == []
  {
    PushKeeps(IDLE, cap, Frame(0, READY, []));
  }

  lemma StartSides(relay: Side, pump: Side, ready: seq<Frame>)
    requires ready == [Frame(0, READY, [])] && relay == Side(Relay, map[], 0, false)
              && pump == Side(Pump, map[], 0, false)
    ensures Near(relay, ready) && Near(pump, []) && Order(relay, ready)
    ensures Far(relay, []) && Far(pump, []) && Opened(pump, [])
  {
    assert Front(ready) == [];
    forall id ensures NearAt(relay, ready, id) && NearAt(pump, [], id) && OpenAt(relay, ready, id) {
      assert Data(ready, id) == [];
    }
  }

  lemma StartInv(cap: nat)
    ensures Inv(START, cap)
  {
    StartTubes(cap);
    StartSides(START.relay.side, START.pump.side, START.relay.out.sent);
  }

  lemma {:induction false} RunKeeps(s: System, cap: nat, ls: seq<Label>)
    requires Inv(s, cap)
    ensures Inv(Run(s, cap, ls), cap)
  {
    if ls != [] {
      RunKeeps(s, cap, Front(ls));
      var t := Run(s, cap, Front(ls));
      if CanDo(t, cap, Last(ls)) { StepKeeps(t, cap, Last(ls)); }
    }
  }

  // ---- the theorems -------------------------------------------------------------------------------------

  lemma Reached(cap: nat, ls: seq<Label>)
    ensures Inv(Run(START, cap, ls), cap)
  {
    StartInv(cap);
    RunKeeps(START, cap, ls);
  }

  /** The codec refuses no frame: in every run ids and chunks fit, so no goroutine is held back by them. */
  lemma NeverHeldBack(cap: nat, ls: seq<Label>, role: Role)
    ensures Encodable(EndOf(Run(START, cap, ls), role))
  {
    Reached(cap, ls);
    NearEncodable(EndOf(Run(START, cap, ls), role));
  }

  lemma WrittenWasRead(near: End, far: Side, id: nat)
    requires Near(near.side, near.out.sent) && Far(far, near.out.delivered) && near.out.delivered <= near.out.sent
    requires id in far.streams && far.streams[id].written != []
    ensures id in near.side.streams && far.streams[id].written <= near.side.streams[id].read
  {
    assert FarStream(near.out.delivered, id, far.streams[id]);
    DataPrefix(near.out.delivered, near.out.sent, id);
    assert NearAt(near.side, near.out.sent, id);
  }

  /**
   In every run, for either direction: what a side has written to a stream's connection is a
   prefix of what the other side has read from that stream's connection. So the bytes are in
   order, none is repeated or invented, and none belongs to another stream.
   */
  lemma StreamIntegrity(cap: nat, ls: seq<Label>, role: Role, id: nat)
    ensures var s := Run(START, cap, ls);
            var near, far := EndOf(s, role).side, EndOf(s, Peer(role)).side;
            id in far.streams && far.streams[id].written != [] ==>
              id in near.streams && far.streams[id].written <= near.streams[id].read
  {
    Reached(cap, ls);
    var s := Run(START, cap, ls);
    var near, far := EndOf(s, role), EndOf(s, Peer(role)).side;
    if id in far.streams && far.streams[id].written != [] {
      WrittenWasRead(near, far, id);
    }
  }

  /** Bytes of a stream that frames between the demuxers still carry. */
  function InFlight(t: Tube, id: nat): seq<byte>
    requires t.delivered <= t.sent
  {
    Data(t.sent[|t.delivered|..], id)
  }

  lemma {:induction false} DataConcat(a: seq<Frame>, b: seq<Frame>, id: nat)
    ensures Data(a + b, id) == Data(a, id) + Data(b, id)
    decreases |b|
  {
    if b == [] {
      assert a + b == a;
    } else {
      DataConcat(a, Front(b), id);
      var last := if Last(b).kind == DATA && Last(b).id == id then Last(b).payload else [];
      assert Data(a + b, id) == Data(a + Front(b), id) + last by {
        assert Front(a + b) == a + Front(b) && Last(a + b) == Last(b);
      }
      assert Data(a, id) + Data(Front(b), id) + last == Data(a, id) + (Data(Front(b), id) + last);
    }
  }

  lemma NothingLost(near: Tube, id: nat, from: Stream, to: Stream)
    requires near.delivered <= near.sent
    requires NearStream(near.sent, id, from) && FarStream(near.delivered, id, to) && from.reading && to.Live()
    ensures from.read == to.written + to.writing + Flatten(to.queue) + InFlight(near, id) + from.chunk
  {
    assert near.sent == near.delivered + near.sent[|near.delivered|..];
    DataConcat(near.delivered, near.sent[|near.delivered|..], id);
  }

  /**
   Nothing is lost while both ends of a stream are live: what was read is exactly what was
   written, what the writer holds, what is queued, what is in flight and what the reader holds.
   */
  lemma LosslessWhileLive(cap: nat, ls: seq<Label>, role: Role, id: nat)
    ensures var s := Run(START, cap, ls);
            var e, far := EndOf(s, role), EndOf(s, Peer(role)).side;
            e.out.delivered <= e.out.sent &&
            (id in e.side.streams && id in far.streams && e.side.streams[id].reading && far.streams[id].Live() ==>
              var st := far.streams[id];
              e.side.streams[id].read ==
                st.written + st.writing + Flatten(st.queue) + InFlight(e.out, id) + e.side.streams[id].chunk)
  {
    Reached(cap, ls);
    var s := Run(START, cap, ls);
    var e, far := EndOf(s, role), EndOf(s, Peer(role)).side;
    if id in e.side.streams && id in far.streams && e.side.streams[id].reading && far.streams[id].Live() {
      assert NearAt(e.side, e.out.sent, id) && FarStream(e.out.delivered, id, far.streams[id]);
      NothingLost(e.out, id, e.side.streams[id], far.streams[id]);
    }
  }

  predicate SameExcept(a: Side, b: Side, id: nat) {
    a.streams - {id} == b.streams - {id}
  }

  /** Dispatching the next frame, whatever it sheds, touches one stream of one side. */
  lemma DispatchTouchesOneStream(s: System, cap: nat, role: Role, pick: bool)
    requires Inv(s, cap) && CanDo(s, cap, Dispatch(role, pick))
    ensures var t, out := Next(s, cap, Dispatch(role, pick)), EndOf(s, role).out;
            |out.delivered| < |out.sent|
            && SameExcept(EndOf(s, Peer(role)).side, EndOf(t, Peer(role)).side, out.sent[|out.delivered|].id)
            && EndOf(t, role).side == EndOf(s, role).side && EndOf(t, Peer(role)).out == EndOf(s, Peer(role)).out
  {
    DeliverKeeps(EndOf(s, role).out, cap);
    ReceiveTouchesOne(EndOf(s, Peer(role)).side, EndOf(s, role).out.sent[|EndOf(s, role).out.delivered|], pick);
  }

  lemma ReceiveTouchesOne(s: Side, f: Frame, pick: bool)
    ensures SameExcept(s, Receive(s, f, pick), f.id)
  {
  }
}
