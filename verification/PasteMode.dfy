/**
 The scanner that watches a child's output for the bracketed-paste mode sequences. The output
 arrives in arbitrary chunks; the scanner keeps a flag and a short tail. The lemmas hold for
 any two sequences of the same length; only the object names the two it looks for.
 */
module PasteMode {
  import opened Basics

  const MARK := 8

  type Mark = s: seq<byte> | |s| == MARK witness [0, 0, 0, 0, 0, 0, 0, 0]

  /** ESC [ ? 2 0 0 4 h and ESC [ ? 2 0 0 4 l. */
  const SET: Mark := [0x1b, 0x5b, 0x3f, 0x32, 0x30, 0x30, 0x34, 0x68]
  const RESET: Mark := [0x1b, 0x5b, 0x3f, 0x32, 0x30, 0x30, 0x34, 0x6c]

  predicate At(stream: seq<byte>, mark: Mark, i: nat) {
    i + MARK <= |stream| && stream[i..i + MARK] == mark
  }

  /** The mode after a whole stream: what its last set or reset sequence says; off when it has none. */
  function Mode(set_: Mark, reset: Mark, stream: seq<byte>): bool {
    if |stream| < MARK then false
    else if At(stream, set_, |stream| - MARK) then true
    else if At(stream, reset, |stream| - MARK) then false
    else Mode(set_, reset, Front(stream))
  }

  /** The last bytes of a stream: enough to complete a sequence cut at its end, never a whole one. */
  function Tail(stream: seq<byte>): seq<byte> {
    if |stream| < MARK then stream else stream[|stream| - (MARK - 1)..]
  }

  // ---- the mode is the last mark ----------------------------------------------------------

  lemma AtFront(stream: seq<byte>, mark: Mark, i: nat)
    requires i + MARK < |stream|
    ensures At(stream, mark, i) <==> At(Front(stream), mark, i)
  {
    assert Front(stream)[i..i + MARK] == stream[i..i + MARK];
  }

  /** The mark starts nowhere beyond position i. */
  ghost predicate NoneAfter(stream: seq<byte>, mark: Mark, i: nat) {
    forall j: nat | j > i :: !At(stream, mark, j)
  }

  lemma {:induction false} OnHasSet(set_: Mark, reset: Mark, stream: seq<byte>) returns (i: nat)
    requires Mode(set_, reset, stream)
    ensures At(stream, set_, i) && NoneAfter(stream, reset, i)
  {
    var n := |stream| - MARK;
    if At(stream, set_, n) {
      i := n;
    } else {
      i := OnHasSet(set_, reset, Front(stream));
      AtFront(stream, set_, i);
      forall j: nat | j > i ensures !At(stream, reset, j) {
        if j < n { AtFront(stream, reset, j); }
      }
    }
  }

  lemma {:induction false} SetMeansOn(set_: Mark, reset: Mark, stream: seq<byte>, i: nat)
    requires At(stream, set_, i) && NoneAfter(stream, reset, i)
    ensures Mode(set_, reset, stream)
  {
    var n := |stream| - MARK;
    if i < n {
      assert !At(stream, reset, n);
      AtFront(stream, set_, i);
      forall j: nat | j > i ensures !At(Front(stream), reset, j) {
        if j < n { AtFront(stream, reset, j); }
      }
      SetMeansOn(set_, reset, Front(stream), i);
    }
  }

  /** The mode is on exactly when some set sequence has no reset sequence after it. */
  lemma ModeIsLastMark(set_: Mark, reset: Mark, stream: seq<byte>)
    ensures Mode(set_, reset, stream) <==> exists i: nat :: At(stream, set_, i) && NoneAfter(stream, reset, i)
  {
    if Mode(set_, reset, stream) {
      var i := OnHasSet(set_, reset, stream);
    } else {
      forall i: nat | At(stream, set_, i) ensures !NoneAfter(stream, reset, i) {
        if NoneAfter(stream, reset, i) { SetMeansOn(set_, reset, stream, i); }
      }
    }
  }

  /** A mark just written decides: ESC [ ? 2 0 0 4 h turns the mode on and ESC [ ? 2 0 0 4 l turns it off. */
  lemma LatestMarkWins(stream: seq<byte>)
    ensures Mode(SET, RESET, stream + [0x1b, 0x5b, 0x3f, 0x32, 0x30, 0x30, 0x34, 0x68])
    ensures !Mode(SET, RESET, stream + [0x1b, 0x5b, 0x3f, 0x32, 0x30, 0x30, 0x34, 0x6c])
  {
    assert SET[7] == 0x68 && RESET[7] == 0x6c;
    assert (stream + SET)[|stream|..|stream| + MARK] == SET;
    assert (stream + RESET)[|stream|..|stream| + MARK] == RESET;
  }

  // ---- the scan --------------------------------------------------------------------------------

  /** What the scan loop makes of a flag after looking at the first n positions of a buffer. */
  ghost function Swept(set_: Mark, reset: Mark, on: bool, buf: seq<byte>, n: nat): bool {
    if n == 0 then on
    else if At(buf, set_, n - 1) then true
    else if At(buf, reset, n - 1) then false
    else Swept(set_, reset, on, buf, n - 1)
  }

  /** One more byte of a stream, seen through the scanner's buffer. */
  lemma ModeNext(set_: Mark, reset: Mark, stream: seq<byte>, buf: seq<byte>, off: nat, i: nat)
    requires off <= |stream| && buf == stream[off..] && i + MARK <= |buf|
    ensures Mode(set_, reset, stream[..off + i + MARK]) ==
              if At(buf, set_, i) then true
              else if At(buf, reset, i) then false
              else Mode(set_, reset, stream[..off + i + MARK - 1])
  {
    var seen := stream[..off + i + MARK];
    assert Front(seen) == stream[..off + i + MARK - 1];
    assert seen[off + i..off + i + MARK] == buf[i..i + MARK];
  }

  lemma {:induction false} SweptIsMode(set_: Mark, reset: Mark, on: bool, stream: seq<byte>, off: nat, buf: seq<byte>,
                                       n: nat)
    requires off <= |stream| && buf == stream[off..] && n + MARK - 1 <= |buf|
    requires on == Mode(set_, reset, stream[..off + MARK - 1])
    ensures Swept(set_, reset, on, buf, n) == Mode(set_, reset, stream[..off + n + MARK - 1])
  {
    if n > 0 {
      SweptIsMode(set_, reset, on, stream, off, buf, n - 1);
      ModeNext(set_, reset, stream, buf, off, n - 1);
    }
  }

  /** The scanner's buffer is the end of the stream, and the flag covers what comes before its new part. */
  lemma BufferIsEnd(set_: Mark, reset: Mark, before: seq<byte>, chunk: seq<byte>)
    ensures var buf, all := Tail(before) + chunk, before + chunk;
            && |buf| <= |all| && buf == all[|all| - |buf|..] && Tail(all) == Tail(buf)
            && Mode(set_, reset, before) ==
                 Mode(set_, reset, if |buf| < MARK then all else all[..|all| - |buf| + MARK - 1])
  {
    var buf, all := Tail(before) + chunk, before + chunk;
    if |before| < MARK {
      assert buf == all;
    } else if chunk == [] {
      assert all == before;
    } else {
      assert all[..|all| - |buf| + MARK - 1] == before;
    }
  }

  function Positions(buf: seq<byte>): nat {
    if |buf| < MARK then 0 else |buf| - (MARK - 1)
  }

  /** Scanning the carried tail and a chunk brings flag and tail up to date, whatever came before. */
  lemma ScanCatchesUp(set_: Mark, reset: Mark, before: seq<byte>, chunk: seq<byte>)
    ensures var buf := Tail(before) + chunk;
            && Swept(set_, reset, Mode(set_, reset, before), buf, Positions(buf)) == Mode(set_, reset, before + chunk)
            && Tail(buf) == Tail(before + chunk)
  {
    var buf, all := Tail(before) + chunk, before + chunk;
    var off := |all| - |buf|;
    BufferIsEnd(set_, reset, before, chunk);
    if |buf| >= MARK {
      assert off + Positions(buf) + MARK - 1 == |all| && all[..|all|] == all;
      SweptIsMode(set_, reset, Mode(set_, reset, before), all, off, buf, Positions(buf));
    }
  }

  function Join(chunks: seq<seq<byte>>): seq<byte> {
    if chunks == [] then [] else Join(Front(chunks)) + Last(chunks)
  }

  class PasteModeTracker {
    var on: bool
    var tail: seq<byte>
    ghost var stream: seq<byte>

    /** The two fields summarise everything written so far, however it was cut into chunks. */
    ghost predicate Valid()
      reads this
    {
      on == Mode(SET, RESET, stream) && tail == Tail(stream)
    }

    constructor ()
      ensures Valid() && stream == []
    {
      on, tail, stream := false, [], [];
    }

    /** Scan one chunk: later occurrences win. */
    method Write(chunk: seq<byte>)
      requires Valid()
      modifies this
      ensures Valid() && stream == old(stream) + chunk
    {
      ScanCatchesUp(SET, RESET, stream, chunk);
      on, tail := Scan(SET, RESET, on, tail + chunk);
      stream := stream + chunk;
    }

    static method Scan(set_: Mark, reset: Mark, start: bool, buf: seq<byte>) returns (on: bool, tail: seq<byte>)
      ensures on == Swept(set_, reset, start, buf, Positions(buf)) && tail == Tail(buf)
    {
      on := start;
      var i := 0;
      while i + MARK <= |buf|
        invariant i == 0 || i + MARK - 1 <= |buf|
        invariant on == Swept(set_, reset, start, buf, i)
      {
        if buf[i..i + MARK] == set_ {
          on := true;
        } else if buf[i..i + MARK] == reset {
          on := false;
        }
        i := i + 1;
      }
      var keep := MARK - 1;
      if |buf| < keep {
        keep := |buf|;
      }
      tail := buf[|buf| - keep..];
    }

    /** Any split of the output into chunks leaves the tracker in the same state. */
    method WriteAll(chunks: seq<seq<byte>>)
      requires Valid()
      modifies this
      ensures Valid() && stream == old(stream) + Join(chunks)
    {
      assert old(stream) + [] == old(stream);
      for k := 0 to |chunks|
        invariant Valid() && stream == old(stream) + Join(chunks[..k])
      {
        Write(chunks[k]);
        assert Front(chunks[..k + 1]) == chunks[..k];
        assert old(stream) + Join(chunks[..k + 1]) == old(stream) + Join(chunks[..k]) + chunks[k];
      }
      assert chunks[..|chunks|] == chunks;
    }
  }
}
