/**
 The stream table of one end, as the object its demux loop and goroutines share. Each method is
 one critical section, proved to be the step of the multiplexer model it stands for.
 */
module Demultiplexer {
  import opened Basics
  import opened Frame
  import opened Mux

  class Demultiplexer {
    const role: Role
    var streams: map<nat, Stream>
    var lastId: nat
    var done: bool

    function State(): Side
      reads this
    {
      Side(role, streams, lastId, done)
    }

    /** Ids handed out by the relay are not beyond the last one. */
    predicate Valid()
      reads this
    {
      role == Relay ==> forall id | id in streams :: id <= lastId
    }

    predicate Registered(id: nat)
      reads this
    {
      id in streams && streams[id].registered
    }

    constructor (role: Role)
      ensures Valid() && State() == Side(role, map[], 0, false)
    {
      this.role := role;
      streams, lastId, done := map[], 0, false;
    }

    /** A new adapter connection gets the next id, unless the relay is shutting down. */
    method Accept() returns (id: nat, ok: bool)
      requires Valid() && role == Relay
      modifies this
      ensures Valid() && ok == !old(done)
      ensures ok ==> id !in old(streams) && Registered(id)
      ensures State() ==
                if ok then old(State()).(streams := old(streams)[id := NewStream(Announcing)], lastId := id)
                else old(State())
      ensures ok ==> id == old(lastId) + 1
    {
      if done {
        return 0, false;
      }
      lastId := lastId + 1;
      streams := streams[lastId := NewStream(Announcing)];
      return lastId, true;
    }

    /** The stream of the id is registered afterwards, unless the side is done; a live one is not replaced. */
    method OpenStream(id: nat)
      requires Valid() && role == Pump
      modifies this`streams
      ensures Valid() && (Registered(id) <==> !done || old(Registered(id)))
      ensures old(Registered(id)) || done ==> streams == old(streams)
      ensures Registered(id) && !old(Registered(id)) ==> streams[id] == NewStream(Dialing)
      ensures streams - {id} == old(streams) - {id}
      ensures State() == Mux.OpenStream(old(State()), id)
    {
      if done {
        return;
      }
      if id in streams && streams[id].registered {
        return;
      }
      streams := streams[id := NewStream(Dialing)];
    }

    /** Never blocks: a full queue sheds its own stream. */
    method DispatchData(id: nat, payload: seq<byte>, pick: bool)
      requires Valid()
      modifies this`streams
      ensures Valid() && streams.Keys == old(streams).Keys
      ensures !old(Registered(id)) ==> streams == old(streams)
      ensures old(Registered(id)) ==>
                var was, st := old(streams)[id], streams[id];
                && (st.closed <==> was.closed || |was.queue| >= STREAM_QUEUE)
                && (st.queue == was.queue + [payload] || st.queue == was.queue)
                && (|was.queue| < STREAM_QUEUE && !was.closed ==> st.queue == was.queue + [payload])
                && (|was.queue| <= STREAM_QUEUE ==> |st.queue| <= STREAM_QUEUE)
                && st == was.(queue := st.queue, closed := st.closed)
      ensures streams - {id} == old(streams) - {id}
      ensures State() == Mux.DispatchData(old(State()), id, payload, pick)
    {
      if id !in streams || !streams[id].registered {
        return;
      }
      var st := streams[id];
      if |st.queue| < STREAM_QUEUE && (!st.closed || pick) {
        streams := streams[id := st.(queue := st.queue + [payload])];
      } else if !st.closed {
        TearDown(id);
      }
    }

    /** The stream is closed, and when its writer ends no CLOSE is owed: none is echoed back. */
    method PeerClose(id: nat)
      requires Valid()
      modifies this`streams
      ensures Valid() && streams.Keys == old(streams).Keys
      ensures !old(Registered(id)) ==> streams == old(streams)
      ensures old(Registered(id)) ==>
                var was, st := old(streams)[id], streams[id];
                && st.closed && NextStream(WriterEnd(id), st).phase == Gone
                && st == was.(peerInitiated := st.peerInitiated, closed := st.closed)
      ensures streams - {id} == old(streams) - {id}
      ensures State() == Mux.PeerClose(old(State()), id)
    {
      if id in streams && streams[id].registered {
        streams := streams[id := streams[id].(peerInitiated := true)];
        TearDown(id);
      }
    }

    /** Idempotent. */
    method TearDown(id: nat)
      requires id in streams
      modifies this`streams
      ensures old(Valid()) ==> Valid()
      ensures streams == old(streams)[id := old(streams)[id].(closed := true)]
    {
      streams := streams[id := streams[id].(closed := true)];
    }

    /** One frame from the tunnel. */
    method Receive(f: Frame, pick: bool)
      requires Valid()
      modifies this`streams
      ensures Valid() && old(streams).Keys <= streams.Keys && streams - {f.id} == old(streams) - {f.id}
      ensures f.kind == READY || (f.kind == OPEN && role == Relay) ==> streams == old(streams)
      ensures f.kind == OPEN && role == Pump && !done ==> Registered(f.id)
      ensures f.kind == CLOSE && old(Registered(f.id)) ==>
                streams[f.id].closed && streams[f.id].queue == old(streams)[f.id].queue
      ensures f.kind == DATA && old(Registered(f.id)) ==>
                streams[f.id].closed || streams[f.id].queue == old(streams)[f.id].queue + [f.payload]
      ensures State() == Mux.Receive(old(State()), f, pick)
    {
      if f.kind == DATA {
        DispatchData(f.id, f.payload, pick);
      } else if f.kind == CLOSE {
        PeerClose(f.id);
      } else if f.kind == OPEN && role == Pump {
        OpenStream(f.id);
      }
    }

    /** Wake everybody, then tear down every registered stream; the relay empties its table first. */
    method Shutdown()
      requires Valid()
      modifies this
      ensures Valid() && done && streams.Keys == old(streams).Keys
      ensures forall id | id in streams && old(Registered(id)) :: streams[id].closed
      ensures role == Relay ==> forall id :: !Registered(id)
      ensures State() == ShutSide(old(State()))
    {
      done := true;
      var todo := set id | id in streams && streams[id].registered;
      if role == Relay {
        streams := map id | id in streams :: streams[id].(registered := false);
      }
      CloseAll(todo);
      assert State() == ShutSide(old(State()));
    }

    method CloseAll(listed: set<nat>)
      requires listed <= streams.Keys
      modifies this`streams
      ensures streams == map id | id in old(streams) ::
                if id in listed then old(streams)[id].(closed := true) else old(streams)[id]
    {
      var todo := listed;
      while todo != {}
        invariant todo <= listed && streams.Keys == old(streams).Keys
        invariant forall id | id in streams ::
                    streams[id] == if id in listed - todo then old(streams)[id].(closed := true) else old(streams)[id]
        decreases |todo|
      {
        var id :| id in todo;
        todo := todo - {id};
        TearDown(id);
      }
    }
  }
}
