/**
 The cooperative multiplexer: the relay in the container and the pump on the host, two
 mirrored demultiplexers joined by two tubes. Every goroutine is a source of steps: the
 accept loop, one reader and one writer per connection, the dialer, and the demux loop,
 which receives a frame and dispatches it in one step because it never blocks. A stream's
 closed flag and its connection close together.
 */
module Mux {
  import opened Basics
  import opened Frame
  import opened Tube

  const STREAM_QUEUE := 256
  const READ_BUFFER := 32768

  datatype Role = Relay | Pump

  /**
   Announcing: the relay's OPEN is not queued yet. Dialing: the pump has no connection yet. Closing:
   a CLOSE is owed.
   */
  datatype Phase = Announcing | Dialing | Serving | Closing | Gone

  /**
   One end of a stream. registered: in the streams map. reading and chunk: the reader goroutine and
   the bytes it read but has not queued. writing: the rest of the writer's current Write. read and
   written are the bytes ever read from and written to the connection.
   */
  datatype Stream = Stream(phase: Phase, registered: bool, closed: bool, peerInitiated: bool,
                           reading: bool, chunk: seq<byte>, queue: seq<seq<byte>>, writing: seq<byte>,
                           read: seq<byte>, written: seq<byte>)
  {
    predicate Live() { registered && !closed }
  }

  datatype Side = Side(role: Role, streams: map<nat, Stream>, lastId: nat, done: bool)

  /** A side and the tube its frames leave through. */
  datatype End = End(side: Side, out: Tube)

  datatype System = System(relay: End, pump: End)

  function NewStream(phase: Phase): Stream {
    Stream(phase, true, false, false, false, [], [], [], [], [])
  }

  function With(e: End, id: nat, st: Stream): End {
    e.(side := e.side.(streams := e.side.streams[id := st]))
  }

  // ---- what the goroutines of one side do ------------------------------------------------

  datatype Local =
    | Accept
    | Announce(id: nat)
    | AnnounceFail(id: nat)
    | DialOk(id: nat)
    | DialFail(id: nat)
    | ReadConn(id: nat, bytes: seq<byte>)
    | ReadEnd(id: nat)
    | PushData(id: nat)
    | DropData(id: nat)
    | TakeChunk(id: nat)
    | WriteConn(id: nat, n: nat)
    | WriterEnd(id: nat)
    | PushClose(id: nat)
    | SkipClose(id: nat)
    | Shutdown

  predicate CanStep(e: End, m: Local) {
    var s := e.side;
    if m.Accept? then
      // one accept loop, which announces a connection before it takes the next
      s.role == Relay && !s.done && s.lastId + 1 < WORD
      && forall id | id in s.streams :: s.streams[id].phase != Announcing
    else if m.Shutdown? then true
    else m.id in s.streams && CanStepStream(e, m, s.streams[m.id])
  }

  predicate CanStepStream(e: End, m: Local, st: Stream)
    requires !m.Accept? && !m.Shutdown?
  {
    match m
    case Announce(_) => st.phase == Announcing && HasRoom(e.out)
    case AnnounceFail(_) => st.phase == Announcing && e.side.done
    case DialOk(_) => st.phase == Dialing
    case DialFail(_) => st.phase == Dialing
    case ReadConn(_, bytes) => st.reading && st.chunk == [] && !st.closed && 0 < |bytes| <= READ_BUFFER
    case ReadEnd(_) => st.reading && st.chunk == []
    case PushData(_) => st.chunk != [] && HasRoom(e.out)
    case DropData(_) => st.chunk != [] && (st.closed || e.side.done)
    case TakeChunk(_) => st.phase == Serving && st.queue != [] && st.writing == []
    case WriteConn(_, n) => st.phase == Serving && !st.closed && 0 < n <= |st.writing|
    case WriterEnd(_) => st.phase == Serving && (st.writing != [] || st.closed || e.side.done)
    case PushClose(_) => st.phase == Closing && HasRoom(e.out)
    case SkipClose(_) => st.phase == Closing && e.side.done
  }

  /** The stream after the step of one of its goroutines. */
  function NextStream(m: Local, st: Stream): Stream
    requires !m.Accept? && !m.Shutdown?
    requires (m.TakeChunk? ==> st.queue != []) && (m.WriteConn? ==> m.n <= |st.writing|)
  {
    match m
    case Announce(_) => st.(phase := Serving, reading := true)
    case AnnounceFail(_) => st.(phase := Gone, registered := false, closed := true)
    case DialOk(_) =>
      if st.closed then st.(phase := if st.peerInitiated then Gone else Closing, registered := false)
      else st.(phase := Serving, reading := true)
    case DialFail(_) => st.(phase := Closing, registered := false)
    case ReadConn(_, bytes) => st.(chunk := bytes, read := st.read + bytes)
    case ReadEnd(_) => st.(reading := false, closed := true)
    case PushData(_) => st.(chunk := [])
    case DropData(_) => st.(reading := false, chunk := [], closed := true)
    case TakeChunk(_) => st.(queue := st.queue[1..], writing := st.queue[0])
    case WriteConn(_, n) => st.(writing := st.writing[n..], written := st.written + st.writing[..n])
    case WriterEnd(_) =>
      st.(phase := if st.peerInitiated then Gone else Closing, registered := false, closed := true, writing := [])
    case PushClose(_) => st.(phase := Gone)
    case SkipClose(_) => st.(phase := Gone)
  }

  /** The frame a step puts on the outbound channel, if any. */
  function Emitted(m: Local, st: Stream): Option<Frame>
  {
    match m
    case Announce(id) => Some(Frame(id, OPEN, []))
    case PushData(id) => Some(Frame(id, DATA, st.chunk))
    case PushClose(id) => Some(Frame(id, CLOSE, []))
    case _ => None
  }

  /** Ids and chunks are small enough for the codec. */
  predicate Encodable(e: End) {
    forall id | id in e.side.streams :: id < WORD && |e.side.streams[id].chunk| <= READ_BUFFER
  }

  function LocalStep(e: End, m: Local): End
    requires CanStep(e, m) && Encodable(e)
  {
    if m.Accept? then
      e.(side := e.side.(streams := e.side.streams[e.side.lastId + 1 := NewStream(Announcing)],
                         lastId := e.side.lastId + 1))
    else if m.Shutdown? then e.(side := ShutSide(e.side))
    else
      var st := e.side.streams[m.id];
      Send(With(e, m.id, NextStream(m, st)), Emitted(m, st))
  }

  function Send(e: End, f: Option<Frame>): End
    requires f.Some? ==> Proper(f.value)
  {
    if f.Some? then e.(out := Push(e.out, f.value)) else e
  }

  /** shutdown: wake everybody and close every registered stream; the relay also clears its map. */
  function ShutSide(s: Side): Side {
    s.(done := true, streams := map id | id in s.streams :: ShutStream(s.role, s.streams[id]))
  }

  function ShutStream(role: Role, st: Stream): Stream {
    if st.registered then st.(closed := true, registered := role == Pump) else st
  }

  // ---- the demux loop ---------------------------------------------------------------------

  /**
   Hand bytes to a stream's bounded queue; shed the stream when it is full. pick settles a select
   with two ready cases.
   */
  function DispatchData(s: Side, id: nat, payload: seq<byte>, pick: bool): Side {
    if id !in s.streams || !s.streams[id].registered then s
    else
      var st := s.streams[id];
      if |st.queue| < STREAM_QUEUE && (!st.closed || pick) then
        s.(streams := s.streams[id := st.(queue := st.queue + [payload])])
      else s.(streams := s.streams[id := st.(closed := true)])
  }

  function PeerClose(s: Side, id: nat): Side {
    if id !in s.streams || !s.streams[id].registered then s
    else s.(streams := s.streams[id := s.streams[id].(peerInitiated := true, closed := true)])
  }

  function OpenStream(s: Side, id: nat): Side {
    if s.done || (id in s.streams && s.streams[id].registered) then s
    else s.(streams := s.streams[id := NewStream(Dialing)])
  }

  function Receive(s: Side, f: Frame, pick: bool): Side {
    if f.kind == DATA then DispatchData(s, f.id, f.payload, pick)
    else if f.kind == CLOSE then PeerClose(s, f.id)
    else if f.kind == OPEN && s.role == Pump then OpenStream(s, f.id)
    else s
  }

  // ---- the whole system ----------------------------------------------------------------------

  /** role names the side that acts: for Wire and Dispatch, the side whose frames move. */
  datatype Label =
    | Do(role: Role, m: Local)
    | Wire(role: Role, move: Move)
    | Dispatch(role: Role, pick: bool)

  function EndOf(s: System, role: Role): End {
    if role == Relay then s.relay else s.pump
  }

  function Peer(role: Role): Role {
    if role == Relay then Pump else Relay
  }

  function WithEnd(s: System, role: Role, e: End): System {
    if role == Relay then s.(relay := e) else s.(pump := e)
  }

  predicate CanDo(s: System, cap: nat, l: Label) {
    var e := EndOf(s, l.role);
    match l
    case Do(_, m) => CanStep(e, m) && Encodable(e)
    case Wire(_, move) => !move.Deliver? && Enabled(e.out, cap, move)
    case Dispatch(_, _) => Enabled(e.out, cap, Deliver)
  }

  function Next(s: System, cap: nat, l: Label): System
    requires CanDo(s, cap, l)
  {
    var e := EndOf(s, l.role);
    match l
    case Do(role, m) => WithEnd(s, role, LocalStep(e, m))
    case Wire(role, move) => WithEnd(s, role, e.(out := Moved(e.out, cap, move)))
    case Dispatch(role, pick) =>
      var f, far := Decode(e.out.acc).frame, EndOf(s, Peer(role));
      WithEnd(WithEnd(s, role, e.(out := Moved(e.out, cap, Deliver))), Peer(role),
              far.(side := Receive(far.side, f, pick)))
  }

  /** A step that cannot happen changes nothing. */
  function Run(s: System, cap: nat, ls: seq<Label>): System {
    if ls == [] then s
    else var t := Run(s, cap, Front(ls)); if CanDo(t, cap, Last(ls)) then Next(t, cap, Last(ls)) else t
  }

  /** The relay has queued READY; nobody has connected. */
  const START :=
    System(End(Side(Relay, map[], 0, false), Push(IDLE, Frame(0, READY, []))),
           End(Side(Pump, map[], 0, false), IDLE))
}
