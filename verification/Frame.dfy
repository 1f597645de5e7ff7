/**
 The frame codec of the cooperative tunnel: a nine-byte header (stream id, type, length,
 big-endian) followed by the payload.
 */
module Frame {
  import opened Basics

  const OPEN: byte := 1
  const DATA: byte := 2
  const CLOSE: byte := 3
  const READY: byte := 4
  const MAX_PAYLOAD := 1_048_576
  const HEADER := 9
  const WORD := 0x1_0000_0000

  datatype Frame = Frame(id: nat, kind: byte, payload: seq<byte>)

  predicate Known(kind: byte) {
    kind == OPEN || kind == DATA || kind == CLOSE || kind == READY
  }

  /** A frame ReadFrame can return: a 32-bit id, a known type and a bounded payload. */
  predicate Proper(f: Frame) {
    f.id < WORD && Known(f.kind) && |f.payload| <= MAX_PAYLOAD
  }

  // ---- big-endian words ----------------------------------------------------------------

  function Word(n: nat): (r: seq<byte>)
    requires n < WORD
    ensures |r| == 4
  {
    [(n / 0x100_0000) as byte, (n / 0x1_0000 % 0x100) as byte, (n / 0x100 % 0x100) as byte, (n % 0x100) as byte]
  }

  function FromWord(s: seq<byte>): (n: nat)
    requires |s| == 4
    ensures n < WORD
  {
    s[0] as int * 0x100_0000 + s[1] as int * 0x1_0000 + s[2] as int * 0x100 + s[3] as int
  }

  lemma WordRoundTrip(n: nat)
    requires n < WORD
    ensures FromWord(Word(n)) == n
  {
    var a, b := n / 0x100, n / 0x1_0000;
    assert n == a * 0x100 + n % 0x100;
    assert a / 0x100 == b && a == b * 0x100 + a % 0x100;
    assert b / 0x100 == n / 0x100_0000 && b == (n / 0x100_0000) * 0x100 + b % 0x100;
  }

  lemma BytesRoundTrip(s: seq<byte>)
    requires |s| == 4
    ensures Word(FromWord(s)) == s
  {
    var n := FromWord(s);
    var a := s[0] as int * 0x1_0000 + s[1] as int * 0x100 + s[2] as int;
    var b := s[0] as int * 0x100 + s[1] as int;
    assert n == a * 0x100 + s[3] as int && n / 0x100 == a && n % 0x100 == s[3] as int;
    assert a == b * 0x100 + s[2] as int && a / 0x100 == b && a % 0x100 == s[2] as int;
    assert n / 0x1_0000 == b && b % 0x100 == s[1] as int && n / 0x100_0000 == s[0] as int;
  }

  // ---- the codec as functions -------------------------------------------------------------

  function Encode(f: Frame): (r: seq<byte>)
    requires f.id < WORD && |f.payload| <= MAX_PAYLOAD
    ensures |r| == HEADER + |f.payload|
  {
    Word(f.id) + [f.kind] + Word(|f.payload|) + f.payload
  }

  datatype Decoded = Got(frame: Frame, rest: seq<byte>) | Truncated | UnknownType | TooLong

  /** One frame off the front of the bytes to come, where the bytes end is where the stream ends. */
  function Decode(bytes: seq<byte>): Decoded {
    if |bytes| < HEADER then Truncated
    else if !Known(bytes[4]) then UnknownType
    else
      var n := FromWord(bytes[5..9]);
      if n > MAX_PAYLOAD then TooLong
      else if |bytes| < HEADER + n then Truncated
      else Got(Frame(FromWord(bytes[0..4]), bytes[4], bytes[HEADER..HEADER + n]), bytes[HEADER + n..])
  }

  /** What the header says of an encoded frame. */
  lemma HeaderOf(f: Frame, tail: seq<byte>)
    requires f.id < WORD && |f.payload| <= MAX_PAYLOAD
    ensures var b := Encode(f) + tail;
            && b[4] == f.kind && FromWord(b[0..4]) == f.id && FromWord(b[5..9]) == |f.payload|
            && b[HEADER..HEADER + |f.payload|] == f.payload && b[HEADER + |f.payload|..] == tail
  {
    var b := Encode(f) + tail;
    WordRoundTrip(f.id);
    WordRoundTrip(|f.payload|);
    assert b[0..4] == Word(f.id);
    assert b[5..9] == Word(|f.payload|);
  }

  /** Decoding what EncodeFrame wrote gives the frame back exactly when its type is known. */
  lemma RoundTrip(f: Frame, tail: seq<byte>)
    requires f.id < WORD && |f.payload| <= MAX_PAYLOAD
    ensures Decode(Encode(f) + tail) == Got(f, tail) <==> Known(f.kind)
    ensures !Known(f.kind) ==> Decode(Encode(f) + tail) == UnknownType
  {
    HeaderOf(f, tail);
  }

  /** Only encodings decode: a frame read is a proper frame whose encoding was next. */
  lemma DecodeIsEncoding(bytes: seq<byte>)
    requires Decode(bytes).Got?
    ensures Proper(Decode(bytes).frame) && bytes == Encode(Decode(bytes).frame) + Decode(bytes).rest
  {
    var f := Decode(bytes).frame;
    BytesRoundTrip(bytes[0..4]);
    BytesRoundTrip(bytes[5..9]);
    assert Encode(f) == bytes[0..4] + [bytes[4]] + bytes[5..9] + bytes[HEADER..HEADER + |f.payload|];
  }

  /** The bytes on the wire: id and length are big-endian words around the type, and the payload follows. */
  lemma WireFormat(f: Frame)
    requires Proper(f)
    ensures var b := Encode(f);
            && |b| == 9 + |f.payload| && b[4] == f.kind && b[9..] == f.payload
            && b[0] as int * 0x100_0000 + b[1] as int * 0x1_0000 + b[2] as int * 0x100 + b[3] as int == f.id
            && b[5] as int * 0x100_0000 + b[6] as int * 0x1_0000 + b[7] as int * 0x100 + b[8] as int == |f.payload|
    ensures 1 <= f.kind <= 4 && |f.payload| <= 0x10_0000
  {
    WordRoundTrip(f.id);
    WordRoundTrip(|f.payload|);
    var b := Encode(f);
    assert b[0..4] == Word(f.id) && b[5..9] == Word(|f.payload|);
  }

  /** Which frames are read: types 1 to 4 and payloads up to a mebibyte, and all of these. */
  lemma ReadableIff(f: Frame)
    requires f.id < WORD
    ensures Proper(f) <==> 1 <= f.kind <= 4 && |f.payload| <= 0x10_0000
  {
  }

  /** No strict prefix of a frame is a frame, and none is mistaken for a damaged one. */
  lemma StrictPrefixTruncated(f: Frame, n: nat)
    requires Proper(f) && n < |Encode(f)|
    ensures Decode(Encode(f)[..n]) == Truncated
  {
    if n >= HEADER {
      HeaderOf(f, []);
      assert Encode(f) + [] == Encode(f);
      assert Encode(f)[..n][5..9] == Encode(f)[5..9];
    }
  }

  // ---- streams of frames ----------------------------------------------------------------------

  predicate AllProper(fs: seq<Frame>) {
    forall i | 0 <= i < |fs| :: Proper(fs[i])
  }

  function EncodeAll(fs: seq<Frame>): seq<byte>
    requires AllProper(fs)
  {
    if fs == [] then [] else Encode(fs[0]) + EncodeAll(fs[1..])
  }

  /** ReadFrame until it fails. */
  function DecodeAll(bytes: seq<byte>): seq<Frame>
    decreases |bytes|
  {
    match Decode(bytes)
    case Got(f, rest) => (DecodeIsEncoding(bytes); [f] + DecodeAll(rest))
    case _ => []
  }

  lemma DecodeAllStep(bytes: seq<byte>)
    ensures match Decode(bytes)
            case Got(f, rest) => DecodeAll(bytes) == [f] + DecodeAll(rest) && |rest| < |bytes|
            case _ => DecodeAll(bytes) == []
  {
    if Decode(bytes).Got? { DecodeIsEncoding(bytes); }
  }

  /** A list of frames written one after the other is read back as that list. */
  lemma {:induction false} StreamRoundTrip(fs: seq<Frame>)
    requires AllProper(fs)
    ensures DecodeAll(EncodeAll(fs)) == fs
  {
    if fs != [] {
      RoundTrip(fs[0], EncodeAll(fs[1..]));
      StreamRoundTrip(fs[1..]);
    }
  }

  /** How many encodings of a list fit, one after the other, in n bytes. */
  function Whole(fs: seq<Frame>, n: nat): (k: nat)
    ensures k <= |fs|
  {
    if fs == [] || n < HEADER + |fs[0].payload| then 0 else 1 + Whole(fs[1..], n - HEADER - |fs[0].payload|)
  }

  lemma CutInFirst(fs: seq<Frame>, n: nat)
    requires AllProper(fs) && fs != [] && n < |Encode(fs[0])|
    ensures n <= |EncodeAll(fs)| && DecodeAll(EncodeAll(fs)[..n]) == []
  {
    assert EncodeAll(fs)[..n] == Encode(fs[0])[..n];
    StrictPrefixTruncated(fs[0], n);
  }

  lemma CutBeyondFirst(fs: seq<Frame>, n: nat)
    requires AllProper(fs) && fs != [] && |Encode(fs[0])| <= n <= |EncodeAll(fs)|
    ensures var m := n - |Encode(fs[0])|;
            m <= |EncodeAll(fs[1..])| && DecodeAll(EncodeAll(fs)[..n]) == [fs[0]] + DecodeAll(EncodeAll(fs[1..])[..m])
  {
    var rest := EncodeAll(fs[1..])[..n - |Encode(fs[0])|];
    assert EncodeAll(fs)[..n] == Encode(fs[0]) + rest;
    RoundTrip(fs[0], rest);
    DecodeAllStep(EncodeAll(fs)[..n]);
  }

  lemma FirstAndRest(fs: seq<Frame>, k: nat)
    requires fs != [] && k < |fs|
    ensures [fs[0]] + fs[1..][..k] == fs[..k + 1]
  {
  }

  /** Cut anywhere, the stream yields exactly the frames that are whole. */
  lemma {:induction false} CutStream(fs: seq<Frame>, n: nat)
    requires AllProper(fs) && n <= |EncodeAll(fs)|
    ensures DecodeAll(EncodeAll(fs)[..n]) == fs[..Whole(fs, n)]
  {
    if fs == [] {
      assert EncodeAll(fs)[..n] == [];
    } else if n < |Encode(fs[0])| {
      CutInFirst(fs, n);
    } else {
      var m := n - |Encode(fs[0])|;
      CutBeyondFirst(fs, n);
      CutStream(fs[1..], m);
      FirstAndRest(fs, Whole(fs[1..], m));
    }
  }

  lemma {:induction false} EncodeAllAppend(fs: seq<Frame>, f: Frame)
    requires AllProper(fs) && Proper(f)
    ensures EncodeAll(fs + [f]) == EncodeAll(fs) + Encode(f)
  {
    if fs == [] {
      assert EncodeAll([f]) == Encode(f) + EncodeAll([]);
    } else {
      assert (fs + [f])[1..] == fs[1..] + [f];
      EncodeAllAppend(fs[1..], f);
    }
  }

  // ---- the codec as the program runs it ----------------------------------------------------------

  method PutWord(buf: array<byte>, at: nat, n: nat)
    requires at + 4 <= buf.Length && n < WORD
    modifies buf
    ensures buf[..] == old(buf[..at]) + Word(n) + old(buf[at + 4..])
  {
    buf[at] := (n / 0x100_0000) as byte;
    buf[at + 1] := (n / 0x1_0000 % 0x100) as byte;
    buf[at + 2] := (n / 0x100 % 0x100) as byte;
    buf[at + 3] := (n % 0x100) as byte;
  }

  method PutHeader(buf: array<byte>, id: nat, kind: byte, n: nat)
    requires buf.Length >= HEADER && id < WORD && n < WORD
    modifies buf
    ensures buf[..HEADER] == Word(id) + [kind] + Word(n)
  {
    PutWord(buf, 0, id);
    assert buf[..4] == Word(id);
    buf[4] := kind;
    assert buf[..5] == Word(id) + [kind];
    PutWord(buf, 5, n);
    assert buf[..5] == Word(id) + [kind] && buf[5..9] == Word(n);
  }

  /** A fresh buffer holding one frame, or nothing when the payload is too long; the type is not looked at. */
  method EncodeFrame(id: nat, kind: byte, payload: seq<byte>) returns (buf: array?<byte>)
    requires id < WORD
    ensures buf == null <==> |payload| > MAX_PAYLOAD
    ensures buf != null ==> fresh(buf) && buf[..] == Encode(Frame(id, kind, payload))
  {
    if |payload| > MAX_PAYLOAD {
      return null;
    }
    buf := new byte[HEADER + |payload|](_ => 0);
    PutHeader(buf, id, kind, |payload|);
    for i := 0 to |payload|
      invariant buf[..HEADER + i] == Word(id) + [kind] + Word(|payload|) + payload[..i]
    {
      buf[HEADER + i] := payload[i];
      assert buf[..HEADER + i + 1] == buf[..HEADER + i] + [payload[i]];
    }
    assert buf[..] == buf[..HEADER + |payload|];
  }

  /** A byte stream that hands out what it has in pieces of its own choosing. */
  class Reader {
    var data: seq<byte>
    var pos: nat

    ghost predicate Valid()
      reads this
    {
      pos <= |data|
    }

    ghost function Rest(): seq<byte>
      reads this
      requires Valid()
    {
      data[pos..]
    }

    constructor (data: seq<byte>)
      ensures Valid() && Rest() == data
    {
      this.data, pos := data, 0;
    }

    /** Between one and want bytes, or none at the end of the stream. */
    method Read(want: nat) returns (got: seq<byte>)
      requires Valid() && want > 0
      modifies this`pos
      ensures Valid() && |got| <= want && old(Rest()) == got + Rest()
      ensures got == [] <==> old(Rest()) == []
    {
      if pos == |data| {
        return [];
      }
      var n: nat :| 1 <= n <= want && pos + n <= |data|;
      got := data[pos..pos + n];
      pos := pos + n;
    }

    /** io.ReadFull: all of want, or whatever was left. */
    method ReadFull(want: nat) returns (got: seq<byte>)
      requires Valid()
      modifies this`pos
      ensures Valid() && old(Rest()) == got + Rest()
      ensures |got| == want || (|got| < want && Rest() == [])
    {
      got := [];
      while |got| < want
        invariant Valid() && |got| <= want && old(Rest()) == got + Rest()
        decreases want - |got|
      {
        var piece := Read(want - |got|);
        if piece == [] {
          return;
        }
        got := got + piece;
      }
    }

    /**
     ReadFrame returns the frame Decode finds in the bytes to come, however they are fragmented, or
     fails as it does.
     */
    method ReadFrame() returns (r: Option<Frame>)
      requires Valid()
      modifies this`pos
      ensures Valid()
      ensures match Decode(old(Rest()))
              case Got(f, rest) => r == Some(f) && Rest() == rest
              case _ => r == None
    {
      ghost var bytes := Rest();
      var hdr := ReadFull(HEADER);
      if |hdr| < HEADER {
        return None;
      }
      assert bytes[0..4] == hdr[0..4] && bytes[5..9] == hdr[5..9] && bytes[4] == hdr[4];
      var id, kind, n := FromWord(hdr[0..4]), hdr[4], FromWord(hdr[5..9]);
      if !Known(kind) || n > MAX_PAYLOAD {
        return None;
      }
      var payload := ReadFull(n);
      if |payload| < n {
        return None;
      }
      assert bytes == hdr + (payload + Rest());
      assert bytes[HEADER..HEADER + n] == payload && bytes[HEADER + n..] == Rest();
      return Some(Frame(id, kind, payload));
    }

    /** The demultiplexer's loop: ReadFrame until it fails hands over exactly the frames of the stream. */
    method ReadAll() returns (fs: seq<Frame>)
      requires Valid()
      modifies this`pos
      ensures fs == DecodeAll(old(Rest()))
    {
      fs := [];
      while true
        invariant Valid() && DecodeAll(old(Rest())) == fs + DecodeAll(Rest())
        decreases |Rest()|
      {
        DecodeAllStep(Rest());
        var r := ReadFrame();
        if r == None {
          return;
        }
        fs := fs + [r.value];
      }
    }
  }
}
