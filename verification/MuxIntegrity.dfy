/**
 Per-stream integrity of the multiplexer, for every interleaving and both directions: what
 is written to a stream's far connection is a prefix of what was read from its near one.
 */
module MuxIntegrity {
  import opened Basics
  import opened Frame
  import opened Tube
  import opened Mux

  // ---- the bytes of one stream in a list of frames -----------------------------------------

  /** All payload bytes a list of frames carries for a stream, in order. */
  function Data(fs: seq<Frame>, id: nat): seq<byte> {
    if fs == [] then []
    else Data(Front(fs), id) + if Last(fs).kind == DATA && Last(fs).id == id then Last(fs).payload else []
  }

  lemma DataAppend(fs: seq<Frame>, f: Frame, id: nat)
    ensures Data(fs + [f], id) == Data(fs, id) + if f.kind == DATA && f.id == id then f.payload else []
  {
    assert Front(fs + [f]) == fs;
  }

  lemma {:induction false} DataPrefix(a: seq<Frame>, b: seq<Frame>, id: nat)
    requires a <= b
    ensures Data(a, id) <= Data(b, id)
    decreases |b|
  {
    if a != b {
      DataPrefix(a, Front(b), id);
    }
  }

  predicate HasOpen(fs: seq<Frame>, id: nat) {
    exists f :: f in fs && f.kind == OPEN && f.id == id
  }

  // ---- the two ends of a stream -----------------------------------------------------------------

  /**
   What has been queued for the peer is a prefix of what was read; while the reader runs only its
   chunk is missing.
   */
  predicate NearStream(sent: seq<Frame>, id: nat, st: Stream) {
    && id < WORD && |st.chunk| <= READ_BUFFER
    && Data(sent, id) <= st.read
    && (st.reading ==> Data(sent, id) + st.chunk == st.read)
    && (!st.reading ==> st.chunk == [])
    && (st.phase == Announcing || st.phase == Dialing ==> st.read == [] && !st.reading)
  }

  /**
   What has been written is a prefix of what was delivered; on a live stream the rest is in the
   writer and the queue.
   */
  predicate FarStream(delivered: seq<Frame>, id: nat, st: Stream) {
    && st.written <= Data(delivered, id)
    && (st.Live() ==> st.written + st.writing + Flatten(st.queue) == Data(delivered, id))
    && (st.phase != Closing && st.phase != Gone && !st.closed ==> st.registered)
  }

  /** A side has sent data of its own streams only. */
  predicate NearAt(s: Side, sent: seq<Frame>, id: nat) {
    if id in s.streams then NearStream(sent, id, s.streams[id]) else Data(sent, id) == []
  }

  ghost predicate Near(s: Side, sent: seq<Frame>) {
    forall id :: NearAt(s, sent, id)
  }

  predicate Far(s: Side, delivered: seq<Frame>) {
    forall id | id in s.streams :: FarStream(delivered, id, s.streams[id])
  }

  /** OPEN goes out once per stream, and before its data and its CLOSE. */
  ghost predicate FramesInOrder(sent: seq<Frame>) {
    && (forall i, j | 0 <= i < j < |sent| && sent[i].kind == OPEN && sent[j].kind == OPEN :: sent[i].id != sent[j].id)
    && OpenedBefore(sent)
  }

  predicate OpenedBefore(sent: seq<Frame>) {
    forall k | 0 <= k < |sent| && (sent[k].kind == DATA || sent[k].kind == CLOSE) :: HasOpen(sent[..k], sent[k].id)
  }

  /** OPEN has gone out for the relay's announced streams only. */
  predicate OpenAt(s: Side, sent: seq<Frame>, id: nat) {
    if id in s.streams then
      && id <= s.lastId && s.streams[id].phase != Dialing
      && (s.streams[id].phase == Announcing ==> !HasOpen(sent, id))
      && (s.streams[id].phase == Serving || s.streams[id].phase == Closing || s.streams[id].reading ==>
            HasOpen(sent, id))
    else !HasOpen(sent, id)
  }

  ghost predicate Order(s: Side, sent: seq<Frame>) {
    FramesInOrder(sent) && forall id :: OpenAt(s, sent, id)
  }

  /** The pump's streams are those whose OPEN has arrived while it was running. */
  ghost predicate Opened(s: Side, delivered: seq<Frame>) {
    && (forall id | id in s.streams :: HasOpen(delivered, id))
    && (forall id :: HasOpen(delivered, id) && !s.done ==> id in s.streams)
  }

  ghost predicate Inv(s: System, cap: nat) {
    && s.relay.side.role == Relay && s.pump.side.role == Pump
    && TubeInv(s.relay.out, cap) && TubeInv(s.pump.out, cap)
    && Near(s.relay.side, s.relay.out.sent) && Near(s.pump.side, s.pump.out.sent)
    && Far(s.relay.side, s.pump.out.delivered) && Far(s.pump.side, s.relay.out.delivered)
    && Order(s.relay.side, s.relay.out.sent)
    && Opened(s.pump.side, s.relay.out.delivered)
  }

  // ---- one goroutine step --------------------------------------------------------------------------

  function SentWith(sent: seq<Frame>, f: Option<Frame>): seq<Frame> {
    if f.Some? then sent + [f.value] else sent
  }

  lemma NearStreamStep(e: End, m: Local, st: Stream, sent: seq<Frame>)
    requires !m.Accept? && !m.Shutdown? && CanStepStream(e, m, st) && NearStream(sent, m.id, st)
    ensures NearStream(SentWith(sent, Emitted(m, st)), m.id, NextStream(m, st))
  {
    if Emitted(m, st).Some? {
      DataAppend(sent, Emitted(m, st).value, m.id);
    }
  }

  lemma FarStreamStep(e: End, m: Local, st: Stream, delivered: seq<Frame>)
    requires !m.Accept? && !m.Shutdown? && CanStepStream(e, m, st) && FarStream(delivered, m.id, st)
    ensures FarStream(delivered, m.id, NextStream(m, st))
  {
    if m.TakeChunk? && st.Live() {
      assert st.writing + Flatten(st.queue) == st.queue[0] + Flatten(st.queue[1..]);
      assert st.written + st.writing + Flatten(st.queue) == st.written + (st.writing + Flatten(st.queue));
      assert st.written + st.queue[0] + Flatten(st.queue[1..]) == st.written + (st.queue[0] + Flatten(st.queue[1..]));
    }
    if m.WriteConn? {
      var st' := NextStream(m, st);
      assert st'.written + st'.writing + Flatten(st.queue) == st.written + st.writing + Flatten(st.queue);
    }
  }

  lemma NearStepAt(e: End, m: Local, id: nat)
    requires NearAt(e.side, e.out.sent, id) && CanStep(e, m) && Encodable(e) && !m.Accept? && !m.Shutdown?
    ensures NearAt(LocalStep(e, m).side, LocalStep(e, m).out.sent, id)
  {
    var st := e.side.streams[m.id];
    var f := Emitted(m, st);
    assert LocalStep(e, m).out.sent == SentWith(e.out.sent, f);
    if id == m.id {
      NearStreamStep(e, m, st, e.out.sent);
    } else if f.Some? {
      DataAppend(e.out.sent, f.value, id);
    }
  }

  lemma NearStep(e: End, m: Local)
    requires Near(e.side, e.out.sent) && CanStep(e, m) && Encodable(e) && !m.Accept? && !m.Shutdown?
    ensures Near(LocalStep(e, m).side, LocalStep(e, m).out.sent)
  {
    forall id ensures NearAt(LocalStep(e, m).side, LocalStep(e, m).out.sent, id) {
      NearStepAt(e, m, id);
    }
  }

  lemma FarStep(e: End, m: Local, delivered: seq<Frame>)
    requires Far(e.side, delivered) && CanStep(e, m) && Encodable(e) && !m.Accept? && !m.Shutdown?
    ensures Far(LocalStep(e, m).side, delivered)
  {
    var e' := LocalStep(e, m);
    forall id | id in e'.side.streams ensures FarStream(delivered, id, e'.side.streams[id]) {
      if id == m.id { FarStreamStep(e, m, e.side.streams[id], delivered); }
    }
  }

  lemma TubeStep(e: End, m: Local, cap: nat)
    requires TubeInv(e.out, cap) && CanStep(e, m) && Encodable(e)
    ensures var e' := LocalStep(e, m);
            TubeInv(e'.out, cap) && e'.out.delivered == e.out.delivered && e'.side.role == e.side.role
  {
    if !m.Accept? && !m.Shutdown? {
      var f := Emitted(m, e.side.streams[m.id]);
      if f.Some? { PushKeeps(e.out, cap, f.value); }
    }
  }

  lemma HasOpenAppend(fs: seq<Frame>, f: Frame, id: nat)
    ensures HasOpen(fs + [f], id) <==> HasOpen(fs, id) || (f.kind == OPEN && f.id == id)
  {
    if HasOpen(fs, id) {
      var g :| g in fs && g.kind == OPEN && g.id == id;
      assert g in fs + [f];
    }
    if f.kind == OPEN && f.id == id { assert f in fs + [f]; }
  }

  lemma NotOpened(sent: seq<Frame>, id: nat, k: nat)
    requires !HasOpen(sent, id) && k < |sent| && sent[k].kind == OPEN
    ensures sent[k].id != id
  {
    assert sent[k] in sent;
  }

  /** Appending a frame keeps the order if an OPEN is the stream's first and the rest follows one. */
  lemma OrderAppend(sent: seq<Frame>, f: Frame)
    requires FramesInOrder(sent)
    requires f.kind == OPEN ==> !HasOpen(sent, f.id)
    requires f.kind == DATA || f.kind == CLOSE ==> HasOpen(sent, f.id)
    ensures FramesInOrder(sent + [f])
  {
    var t := sent + [f];
    forall i, j | 0 <= i < j < |t| && t[i].kind == OPEN && t[j].kind == OPEN ensures t[i].id != t[j].id {
      if j == |sent| { NotOpened(sent, f.id, i); }
    }
    forall k | 0 <= k < |t| && (t[k].kind == DATA || t[k].kind == CLOSE) ensures HasOpen(t[..k], t[k].id) {
      assert t[..k] == if k == |sent| then sent else sent[..k];
    }
  }

  lemma OpenStepAt(e: End, m: Local, id: nat)
    requires OpenAt(e.side, e.out.sent, id) && CanStep(e, m) && Encodable(e) && !m.Accept? && !m.Shutdown?
    ensures OpenAt(LocalStep(e, m).side, LocalStep(e, m).out.sent, id)
  {
    var f := Emitted(m, e.side.streams[m.id]);
    assert LocalStep(e, m).out.sent == SentWith(e.out.sent, f);
    if f.Some? { HasOpenAppend(e.out.sent, f.value, id); }
  }

  lemma OrderStep(e: End, m: Local)
    requires Order(e.side, e.out.sent) && Near(e.side, e.out.sent) && CanStep(e, m) && Encodable(e) && !m.Accept?
              && !m.Shutdown?
    ensures Order(LocalStep(e, m).side, LocalStep(e, m).out.sent)
  {
    var f := Emitted(m, e.side.streams[m.id]);
    assert LocalStep(e, m).out.sent == SentWith(e.out.sent, f);
    if f.Some? {
      assert OpenAt(e.side, e.out.sent, m.id) && NearAt(e.side, e.out.sent, m.id);
      OrderAppend(e.out.sent, f.value);
    }
    forall id ensures OpenAt(LocalStep(e, m).side, LocalStep(e, m).out.sent, id) {
      OpenStepAt(e, m, id);
    }
  }

  // ---- the other steps ---------------------------------------------------------------------------------

  lemma ShutKeeps(e: End, delivered: seq<Frame>)
    requires Near(e.side, e.out.sent) && Far(e.side, delivered)
    ensures var s := ShutSide(e.side); Near(s, e.out.sent) && Far(s, delivered)
  {
    var s := ShutSide(e.side);
    forall id ensures NearAt(s, e.out.sent, id) {
      assert NearAt(e.side, e.out.sent, id);
    }
    forall id | id in s.streams ensures FarStream(delivered, id, s.streams[id]) {
      assert FarStream(delivered, id, e.side.streams[id]);
    }
  }

  lemma ShutKeepsOrder(s: Side, sent: seq<Frame>)
    requires Order(s, sent)
    ensures Order(ShutSide(s), sent)
  {
    forall id ensures OpenAt(ShutSide(s), sent, id) {
      assert OpenAt(s, sent, id);
    }
  }

  lemma AcceptKeeps(e: End, delivered: seq<Frame>)
    requires Near(e.side, e.out.sent) && Far(e.side, delivered) && Order(e.side, e.out.sent) && CanStep(e, Accept)
              && Encodable(e)
    requires Data(delivered, e.side.lastId + 1) == []
    ensures var e' := LocalStep(e, Accept);
            Near(e'.side, e'.out.sent) && Far(e'.side, delivered) && Order(e'.side, e'.out.sent)
  {
    var e', new_ := LocalStep(e, Accept), e.side.lastId + 1;
    assert OpenAt(e.side, e.out.sent, new_);
    forall id ensures NearAt(e'.side, e'.out.sent, id) && OpenAt(e'.side, e'.out.sent, id) {
      assert NearAt(e.side, e.out.sent, id) && OpenAt(e.side, e.out.sent, id);
    }
  }

  /** Frames handed over so far for a stream the pump has not opened carry none of its data. */
  lemma NoDataBeforeOpen(sent: seq<Frame>, delivered: seq<Frame>, id: nat)
    requires OpenedBefore(sent) && delivered <= sent && !HasOpen(delivered, id)
    ensures Data(delivered, id) == []
    decreases |delivered|
  {
    if delivered != [] {
      var k := |delivered| - 1;
      assert Front(delivered) == sent[..k];
      assert !HasOpen(Front(delivered), id) by {
        forall f | f in Front(delivered) ensures f in delivered {}
      }
      NoDataBeforeOpen(sent, Front(delivered), id);
      assert sent[k] == Last(delivered);
    }
  }

  lemma HasOpenPrefix(a: seq<Frame>, b: seq<Frame>, id: nat)
    requires a <= b && HasOpen(a, id)
    ensures HasOpen(b, id)
  {
    var f :| f in a && f.kind == OPEN && f.id == id;
    assert f in b;
  }

  lemma FarReceiveOther(delivered: seq<Frame>, f: Frame, id: nat, st: Stream)
    requires FarStream(delivered, id, st) && !(f.kind == DATA && f.id == id)
    ensures FarStream(delivered + [f], id, st)
  {
    DataAppend(delivered, f, id);
  }

  /**
   Dispatching data: queued on a live stream it extends what is accounted for; otherwise the stream
   is no longer live.
   */
  lemma FarDispatch(s: Side, delivered: seq<Frame>, f: Frame, pick: bool)
    requires f.kind == DATA && f.id in s.streams && FarStream(delivered, f.id, s.streams[f.id])
    ensures FarStream(delivered + [f], f.id, DispatchData(s, f.id, f.payload, pick).streams[f.id])
  {
    var st := s.streams[f.id];
    DataAppend(delivered, f, f.id);
    FlattenAppend(st.queue, f.payload);
    assert st.written + st.writing + (Flatten(st.queue) + f.payload) ==
      st.written + st.writing + Flatten(st.queue) + f.payload;
  }

  lemma ReceiveFar(s: Side, delivered: seq<Frame>, f: Frame, pick: bool)
    requires Far(s, delivered)
    requires f.kind == OPEN && s.role == Pump && !s.done ==> f.id !in s.streams && Data(delivered, f.id) == []
    ensures Far(Receive(s, f, pick), delivered + [f])
  {
    var s' := Receive(s, f, pick);
    DataAppend(delivered, f, f.id);
    forall id | id in s'.streams ensures FarStream(delivered + [f], id, s'.streams[id]) {
      if id in s.streams && !(f.kind == DATA && f.id == id) {
        FarReceiveOther(delivered, f, id, s.streams[id]);
      } else if id in s.streams {
        FarDispatch(s, delivered, f, pick);
      }
    }
  }

  /** Receiving a frame does not touch what a side has read or sent. */
  lemma ReceiveNear(s: Side, sent: seq<Frame>, f: Frame, pick: bool)
    requires Near(s, sent) && (f.kind == OPEN && s.role == Pump && !s.done ==> f.id !in s.streams) && f.id < WORD
    ensures Near(Receive(s, f, pick), sent)
  {
    forall id ensures NearAt(Receive(s, f, pick), sent, id) {
      assert NearAt(s, sent, id);
    }
  }

  lemma ReceiveOrder(s: Side, sent: seq<Frame>, f: Frame, pick: bool)
    requires Order(s, sent) && s.role == Relay
    ensures Order(Receive(s, f, pick), sent)
  {
    forall id ensures OpenAt(Receive(s, f, pick), sent, id) {
      assert OpenAt(s, sent, id);
    }
  }

  lemma ReceiveKnown(s: Side, delivered: seq<Frame>, f: Frame, pick: bool)
    requires Opened(s, delivered) && s.role == Pump
    ensures Opened(Receive(s, f, pick), delivered + [f])
  {
    var s' := Receive(s, f, pick);
    forall id ensures HasOpen(delivered + [f], id) <==> HasOpen(delivered, id) || (f.kind == OPEN && f.id == id) {
      HasOpenAppend(delivered, f, id);
    }
  }
}
