/**
 One direction of the tunnel: a bounded channel of encoded frames, the single writer
 goroutine with the rest of its current write, the bounded pipe, and the bytes the
 reading side's ReadFrame has collected so far. Bytes move in pieces of any size.
 sent and delivered are history variables.
 */
module Tube {
  import opened Basics
  import opened Frame

  const OUT_QUEUE := 256

  datatype Tube = Tube(outCh: seq<seq<byte>>, held: seq<byte>, pipe: seq<byte>, acc: seq<byte>,
                       sent: seq<Frame>, delivered: seq<Frame>)

  const IDLE := Tube([], [], [], [], [], [])

  datatype Move = TakeFrame | Flow(n: nat) | Pull(n: nat) | Deliver

  function Flatten(ss: seq<seq<byte>>): seq<byte> {
    if ss == [] then [] else ss[0] + Flatten(ss[1..])
  }

  /** Bytes the current ReadFull still asks for. */
  function Wanted(acc: seq<byte>): nat {
    if |acc| < HEADER then HEADER - |acc|
    else if HEADER + FromWord(acc[5..9]) > |acc| then HEADER + FromWord(acc[5..9]) - |acc|
    else 0
  }

  /** A producer may put a frame on the channel. */
  predicate HasRoom(t: Tube) {
    |t.outCh| < OUT_QUEUE
  }

  function Push(t: Tube, f: Frame): Tube
    requires Proper(f)
  {
    t.(outCh := t.outCh + [Encode(f)], sent := t.sent + [f])
  }

  /** cap is the capacity of the pipe. */
  predicate Enabled(t: Tube, cap: nat, m: Move) {
    match m
    case TakeFrame => t.outCh != [] && t.held == []
    case Flow(n) => 0 < n <= |t.held| && |t.pipe| + n <= cap
    case Pull(n) => 0 < n <= |t.pipe| && n <= Wanted(t.acc)
    case Deliver => Decode(t.acc).Got? && Wanted(t.acc) == 0
  }

  function Moved(t: Tube, cap: nat, m: Move): Tube
    requires Enabled(t, cap, m)
  {
    match m
    case TakeFrame => t.(outCh := t.outCh[1..], held := t.outCh[0])
    case Flow(n) => t.(held := t.held[n..], pipe := t.pipe + t.held[..n])
    case Pull(n) => t.(pipe := t.pipe[n..], acc := t.acc + t.pipe[..n])
    case Deliver => t.(acc := [], delivered := t.delivered + [Decode(t.acc).frame])
  }

  /** Everything between the producers and the dispatcher. */
  function Bytes(t: Tube): seq<byte> {
    t.acc + t.pipe + t.held + Flatten(t.outCh)
  }

  predicate TubeInv(t: Tube, cap: nat) {
    && AllProper(t.sent)
    && t.delivered <= t.sent
    && Bytes(t) == EncodeAll(t.sent[|t.delivered|..])
    && (t.acc != [] ==> |t.delivered| < |t.sent| && |t.acc| <= |Encode(t.sent[|t.delivered|])|)
    && |t.outCh| <= OUT_QUEUE && |t.pipe| <= cap
    && (forall i | 0 <= i < |t.outCh| :: t.outCh[i] != [])
  }

  lemma {:induction false} FlattenAppend(ss: seq<seq<byte>>, s: seq<byte>)
    ensures Flatten(ss + [s]) == Flatten(ss) + s
  {
    if ss == [] {
      assert Flatten([s]) == s + Flatten([]);
    } else {
      assert (ss + [s])[1..] == ss[1..] + [s];
      FlattenAppend(ss[1..], s);
    }
  }

  lemma PushKeeps(t: Tube, cap: nat, f: Frame)
    requires TubeInv(t, cap) && HasRoom(t) && Proper(f)
    ensures TubeInv(Push(t, f), cap)
  {
    var t', rest := Push(t, f), t.sent[|t.delivered|..];
    FlattenAppend(t.outCh, Encode(f));
    assert t'.sent[|t.delivered|..] == rest + [f];
    EncodeAllAppend(rest, f);
  }

  /** The bytes collected so far are the beginning of the next frame's encoding. */
  lemma AccIsPrefix(t: Tube, cap: nat)
    requires TubeInv(t, cap) && Bytes(t) != []
    ensures |t.delivered| < |t.sent| && t.acc <= Encode(t.sent[|t.delivered|])
    ensures Bytes(t) == Encode(t.sent[|t.delivered|]) + EncodeAll(t.sent[|t.delivered| + 1..])
  {
    var rest := t.sent[|t.delivered|..];
    assert rest != [];
    assert rest[1..] == t.sent[|t.delivered| + 1..];
    var e := Encode(rest[0]);
    assert t.acc == Bytes(t)[..|t.acc|] == (e + EncodeAll(rest[1..]))[..|t.acc|];
  }

  /** What is wanted never reaches beyond the frame being read. */
  lemma WantedWithinFrame(f: Frame, acc: seq<byte>)
    requires Proper(f) && acc <= Encode(f)
    ensures |acc| + Wanted(acc) <= |Encode(f)|
    ensures |acc| == |Encode(f)| <==> Wanted(acc) == 0
    ensures Wanted(acc) == 0 ==> Decode(acc) == Got(f, [])
  {
    HeaderOf(f, []);
    assert Encode(f) + [] == Encode(f);
    if |acc| >= HEADER {
      assert acc[5..9] == Encode(f)[5..9];
    }
    if |acc| == |Encode(f)| {
      assert acc == Encode(f);
      RoundTrip(f, []);
    }
  }

  lemma PullBytes(t: Tube, cap: nat, n: nat)
    requires Enabled(t, cap, Pull(n))
    ensures Bytes(Moved(t, cap, Pull(n))) == Bytes(t)
  {
    assert t.pipe == t.pipe[..n] + t.pipe[n..];
    assert t.acc + t.pipe[..n] + t.pipe[n..] == t.acc + t.pipe;
  }

  /** The reader takes what it wants of the frame it is at, and no more. */
  lemma PullKeeps(t: Tube, cap: nat, n: nat)
    requires TubeInv(t, cap) && Enabled(t, cap, Pull(n))
    ensures TubeInv(Moved(t, cap, Pull(n)), cap)
  {
    PullBytes(t, cap, n);
    assert Bytes(t) != [];
    AccIsPrefix(t, cap);
    WantedWithinFrame(t.sent[|t.delivered|], t.acc);
  }

  lemma MoveKeeps(t: Tube, cap: nat, m: Move)
    requires TubeInv(t, cap) && Enabled(t, cap, m)
    ensures TubeInv(Moved(t, cap, m), cap)
  {
    var t' := Moved(t, cap, m);
    match m
    case TakeFrame => assert Bytes(t') == Bytes(t);
    case Flow(n) => assert Bytes(t') == Bytes(t);
    case Pull(n) => PullKeeps(t, cap, n);
    case Deliver => DeliverKeeps(t, cap);
  }

  lemma CancelPrefix(a: seq<byte>, x: seq<byte>, y: seq<byte>)
    requires a + x == a + y
    ensures x == y
  {
    assert x == (a + x)[|a|..] && y == (a + y)[|a|..];
  }

  /** ReadFrame hands over exactly the next frame sent, and nothing of the one after it. */
  lemma DeliverKeeps(t: Tube, cap: nat)
    requires TubeInv(t, cap) && Enabled(t, cap, Deliver)
    ensures TubeInv(Moved(t, cap, Deliver), cap)
    ensures |t.delivered| < |t.sent| && Decode(t.acc) == Got(t.sent[|t.delivered|], [])
  {
    var t', f := Moved(t, cap, Deliver), t.sent[|t.delivered|];
    AccIsPrefix(t, cap);
    WantedWithinFrame(f, t.acc);
    assert t.acc == Encode(f);
    var rest := EncodeAll(t.sent[|t.delivered| + 1..]);
    CancelPrefix(t.acc, Bytes(t'), rest) by {
      assert Bytes(t) == t.acc + Bytes(t');
    }
    assert t'.sent[|t'.delivered|..] == t.sent[|t.delivered| + 1..];
  }

  // ---- progress --------------------------------------------------------------------------

  /** Queued and in-flight bytes, weighted by how far they still have to go. */
  function Load(t: Tube): nat {
    |t.acc| + 2 * |t.pipe| + 3 * |t.held| + 4 * |Flatten(t.outCh)|
  }

  predicate Empty(t: Tube) {
    t.acc == [] && t.pipe == [] && t.held == [] && t.outCh == []
  }

  /** A move that is always possible while anything is queued or in flight. */
  function NextMove(t: Tube): Move {
    if Decode(t.acc).Got? && Wanted(t.acc) == 0 then Deliver
    else if t.pipe != [] then Pull(1)
    else if t.held != [] then Flow(1)
    else TakeFrame
  }

  lemma MoveLowersLoad(t: Tube, cap: nat, m: Move)
    requires Enabled(t, cap, m) && forall i | 0 <= i < |t.outCh| :: t.outCh[i] != []
    ensures Load(Moved(t, cap, m)) < Load(t)
  {
  }

  /** No tube is ever stuck: with anything queued or in flight, some move is enabled, and it lowers the load. */
  lemma NeverStuck(t: Tube, cap: nat)
    requires TubeInv(t, cap) && !Empty(t) && cap > 0
    ensures Enabled(t, cap, NextMove(t))
    ensures Load(Moved(t, cap, NextMove(t))) < Load(t)
  {
    if t.outCh != [] { assert Flatten(t.outCh) == t.outCh[0] + Flatten(t.outCh[1..]); }
    assert Bytes(t) != [];
    AccIsPrefix(t, cap);
    var f := t.sent[|t.delivered|];
    WantedWithinFrame(f, t.acc);
    if t.pipe == [] && t.held == [] && t.outCh == [] {
      assert Bytes(t) == t.acc;
    }
    MoveLowersLoad(t, cap, NextMove(t));
  }
}
