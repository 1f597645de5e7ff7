/**
 Histories of the queue: the tables answer as the desk does, and every line moves first in,
 first out.
 */
module LeaseFairness {
  import opened Basics
  import opened LeaseTables
  import opened LeaseQueue

  function DeskAfter(d: Desk, h: seq<Event>): Desk {
    if h == [] then d else DeskExec(DeskAfter(d, Front(h)), Last(h).now, Last(h).op).0
  }

  function DeskReplyTo(d: Desk, h: seq<Event>, k: nat): Reply
    requires k < |h|
  {
    DeskExec(DeskAfter(d, h[..k]), h[k].now, h[k].op).1
  }

  /** Every enqueue of the history obeys the tie rule. */
  predicate AllSettled(t: Tables, h: seq<Event>) {
    forall k | 0 <= k < |h| :: Settled(After(t, h[..k]), h[k])
  }

  lemma SettledFront(t: Tables, h: seq<Event>)
    requires AllSettled(t, h) && h != []
    ensures AllSettled(t, Front(h)) && Settled(After(t, Front(h)), Last(h))
  {
    forall k | 0 <= k < |Front(h)| ensures Settled(After(t, Front(h)[..k]), Front(h)[k]) {
      assert Front(h)[..k] == h[..k];
    }
    assert h[..|h| - 1] == Front(h);
  }

  lemma {:induction false} HistoryRelated(t: Tables, d: Desk, from: int, h: seq<Event>)
    requires Rel(t, d, from) && Good(t.waiters, from) && Monotone(from, h) && AllSettled(t, h)
    ensures Rel(After(t, h), DeskAfter(d, h), Clock(from, h)) && Good(After(t, h).waiters, Clock(from, h))
  {
    if h != [] {
      MonotoneFront(from, h);
      SettledFront(t, h);
      HistoryRelated(t, d, from, Front(h));
      RelLater(After(t, Front(h)), DeskAfter(d, Front(h)), Clock(from, Front(h)), Last(h).now);
      StepRefines(After(t, Front(h)), DeskAfter(d, Front(h)), Last(h));
    }
  }

  lemma PrefixFacts(t: Tables, from: int, h: seq<Event>, k: nat)
    requires Monotone(from, h) && AllSettled(t, h) && k < |h|
    ensures Monotone(from, h[..k]) && AllSettled(t, h[..k]) && Clock(from, h[..k]) <= h[k].now && from <= h[k].now
    ensures Settled(After(t, h[..k]), h[k])
  {
    forall j | 0 <= j < k ensures Settled(After(t, h[..k][..j]), h[..k][j]) {
      assert h[..k][..j] == h[..j];
    }
  }

  /**
   The waiter table refines a first-in first-out list per key: on every history with a
   nondecreasing clock and settled ties, every call other than Dequeue gets the desk's answer.
   */
  lemma LedgerRefinesDesk(t: Tables, d: Desk, from: int, h: seq<Event>, k: nat)
    requires Rel(t, d, from) && Good(t.waiters, from) && Monotone(from, h) && AllSettled(t, h)
    requires k < |h| && !h[k].op.Dequeue?
    ensures ReplyTo(t, h, k) == DeskReplyTo(d, h, k)
  {
    PrefixFacts(t, from, h, k);
    HistoryRelated(t, d, from, h[..k]);
    RelLater(After(t, h[..k]), DeskAfter(d, h[..k]), Clock(from, h[..k]), h[k].now);
    StepRefines(After(t, h[..k]), DeskAfter(d, h[..k]), h[k]);
  }

  /** Dequeue alone can tell: it still reports a row that has expired but was not yet pruned. */
  lemma DequeueSeesUnpruned(t: Tables, d: Desk, now: int, key: Key, session: Session)
    requires Rel(t, d, now) && session != ""
    ensures Exec(t, now, Dequeue(key, session)).1 == DeskExec(d, now, Dequeue(key, session)).1
            <==> (HasRow(t.waiters, key, session) ==> session in Names(Q(t.waiters, key, now)))
  {
    assert LineAt(Expire(d, now), key) == Q(t.waiters, key, now) by {
      PruneIsExpire(t, d, now, key);
      QOfUnexpired(t.waiters, key, now);
    }
    LiveHasRow(t.waiters, key, session, now);
  }

  lemma FirstRow(key: Key, session: Session, now: int, ttl: int)
    requires session != ""
    ensures EnqueueStep(EMPTY, now, key, session, ttl).0.waiters == [NewWaiter(key, session, now, ttl)]
  {
    assert Unexpired([], now) == [];
    assert [] + [NewWaiter(key, session, now, ttl)] == [NewWaiter(key, session, now, ttl)];
  }

  lemma RowIsDequeued(t: Tables, now: int, key: Key, session: Session)
    requires session != "" && HasRow(t.waiters, key, session)
    ensures Exec(t, now, Dequeue(key, session)).1 == Dequeued(true)
  {
  }

  lemma StaleRow(key: Key, session: Session, now: int)
    requires session != ""
    ensures Exec(Exec(EMPTY, now, Enqueue(key, session, 1)).0, now + 1, Dequeue(key, session)).1 == Dequeued(true)
  {
    var t := EnqueueStep(EMPTY, now, key, session, 1).0;
    assert HasRow(t.waiters, key, session) by {
      FirstRow(key, session, now, 1);
      assert t.waiters[0] == NewWaiter(key, session, now, 1);
    }
    assert Exec(EMPTY, now, Enqueue(key, session, 1)).0 == t;
    RowIsDequeued(t, now + 1, key, session);
  }

  const NOBODY := Desk(map[], map[])

  lemma GoneEntry(key: Key, session: Session, now: int)
    requires session != ""
    ensures DeskExec(DeskExec(NOBODY, now, Enqueue(key, session, 1)).0, now + 1, Dequeue(key, session)).1 ==
              Dequeued(false)
  {
    var d, e := DeskExec(NOBODY, now, Enqueue(key, session, 1)).0, Entry(session, now + 1);
    assert d.lines[key] == [e] by { assert Names([]) == [] && JoinLine([], session, now + 1) == [e]; }
    assert Alive([e], now + 1) == [] by { assert Front([e]) == []; }
  }

  /**
   From an empty ledger: an intent that lives for one tick is dequeued as it expires. The ledger still
   finds its row; the desk has let it go.
   */
  lemma StaleDequeue(key: Key, session: Session, now: int)
    requires session != ""
    ensures var join, leave := Enqueue(key, session, 1), Dequeue(key, session);
            && Exec(Exec(EMPTY, now, join).0, now + 1, leave).1 == Dequeued(true)
            && DeskExec(DeskExec(NOBODY, now, join).0, now + 1, leave).1 == Dequeued(false)
  {
    StaleRow(key, session, now);
    GoneEntry(key, session, now);
  }

  lemma LiveHasRow(rows: seq<Waiter>, key: Key, session: Session, now: int)
    ensures session in Names(Q(rows, key, now)) ==> HasRow(rows, key, session)
  {
    LiveMembers(rows, key, now);
    if session in Names(Q(rows, key, now)) {
      var l := Live(rows, key, now);
      var i :| 0 <= i < |l| && l[i].session == session;
      assert l[i] in l;
      var j :| 0 <= j < |rows| && rows[j] == l[i];
    }
  }

  // ---- how a line moves --------------------------------------------------------------------------

  /** First in, first out, on names alone. */
  function NextLine(line: seq<Session>, key: Key, op: Op, granted: bool): seq<Session> {
    match op
    case Enqueue(k, s, _) => if k == key && s != "" && s !in line then line + [s] else line
    case Dequeue(k, s) =>
      var n := Ahead(line, s); if k == key && s != "" && n < |line| then line[..n] + line[n + 1..] else line
    case Acquire(k, _, _) => if k == key && granted && line != [] then line[1..] else line
    case _ => line
  }

  lemma JoinNames(q: seq<Entry>, session: Session, expires: int)
    ensures Names(JoinLine(q, session, expires)) == if session in Names(q) then Names(q) else Names(q) + [session]
  {
  }

  lemma LeaveNames(q: seq<Entry>, session: Session)
    ensures var n := Ahead(Names(q), session);
            Names(LeaveLine(q, session)) == if n < |q| then Names(q)[..n] + Names(q)[n + 1..] else Names(q)
  {
  }

  lemma EnqueueMoves(t: Tables, now: int, op: Op, key: Key)
    requires Good(t.waiters, now) && op.Enqueue? && op.session != "" && Settled(t, At(now, op))
    ensures Line(Exec(t, now, op).0.waiters, key, now) == NextLine(Line(t.waiters, key, now), key, op, false)
  {
    var rows, w := Unexpired(t.waiters, now), NewWaiter(op.key, op.session, now, op.ttl);
    var q := Q(t.waiters, key, now);
    assert Line(Exec(t, now, op).0.waiters, key, now) == Names(Q(Upsert(rows, w), key, now)) by {
      GoodEnqueue(t, now, op);
      LineIsQ(Upsert(rows, w), key, now, now);
    }
    assert Q(Upsert(rows, w), key, now) == if key == w.key then JoinLine(q, w.session, w.expires) else q by {
      UnexpiredGood(t.waiters, now, now);
      UnexpiredAlive(t.waiters, now);
      QOfUnexpired(t.waiters, key, now);
      QUpsert(rows, w, key, now, now);
    }
    LineIsQ(t.waiters, key, now, now);
    JoinNames(q, op.session, w.expires);
  }

  lemma WithoutMoves(rows: seq<Waiter>, now: int, gone: Key, session: Session, key: Key)
    requires Good(rows, now)
    ensures var line := Line(rows, key, now); var n := Ahead(line, session);
            Line(Without(rows, gone, session), key, now)
            == if key == gone && n < |line| then line[..n] + line[n + 1..] else line
  {
    var q, r := Q(rows, key, now), Q(Without(rows, gone, session), key, now);
    assert Line(Without(rows, gone, session), key, now) == Names(r) by {
      WithoutGood(rows, gone, session, now);
      LineIsQ(Without(rows, gone, session), key, now, now);
    }
    LineIsQ(rows, key, now, now);
    assert r == if key == gone then LeaveLine(q, session) else q by {
      QWithout(rows, gone, session, key, now);
      DropIsLeave(q, session);
    }
    LeaveNames(q, session);
  }

  lemma PruneMoves(rows: seq<Waiter>, now: int, key: Key)
    requires Good(rows, now)
    ensures Line(Unexpired(rows, now), key, now) == Line(rows, key, now) && Good(Unexpired(rows, now), now)
  {
    UnexpiredGood(rows, now, now);
    QOfUnexpired(rows, key, now);
    LineIsQ(Unexpired(rows, now), key, now, now);
    LineIsQ(rows, key, now, now);
  }

  /** Anti-barging: a key is granted exactly when it is free and the caller leads its line, if there is one. */
  lemma GrantOnlyToHead(t: Tables, now: int, op: Op)
    requires Good(t.waiters, now) && op.Acquire?
    ensures var line := Line(t.waiters, op.key, now);
            Exec(t, now, op).1.Granted? <==>
            op.session != "" && Free(t.leases, op.key, now) && (line == [] || line[0] == op.session)
  {
    PruneMoves(t.waiters, now, op.key);
  }

  /**
   When an acquire succeeds, read off the tables: the line left after pruning is empty or led by the caller,
   and the key has no holder whose expiry lies ahead. A lapsed lease is taken over.
   */
  lemma GrantedIff(t: Tables, now: int, op: Op)
    requires op.Acquire?
    ensures var line, live := Line(Unexpired(t.waiters, now), op.key, now),
                              op.key in t.leases && t.leases[op.key].holder != "" && now < t.leases[op.key].expires;
            Exec(t, now, op).1.Granted? <==> op.session != "" && !live && (line == [] || line[0] == op.session)
  {
  }

  lemma AcquireMoves(t: Tables, now: int, op: Op, key: Key)
    requires Good(t.waiters, now) && op.Acquire? && op.session != ""
    ensures var r := Exec(t, now, op);
            Line(r.0.waiters, key, now) == NextLine(Line(t.waiters, key, now), key, op, r.1.Granted?)
  {
    var rows, granted := Unexpired(t.waiters, now), Exec(t, now, op).1.Granted?;
    PruneMoves(t.waiters, now, key);
    PruneMoves(t.waiters, now, op.key);
    GrantOnlyToHead(t, now, op);
    AcquireRows(t, now, op);
    if granted && Line(rows, op.key, now) != [] {
      ServedMoves(rows, now, op.key, op.session, key);
    }
  }

  lemma ServedMoves(rows: seq<Waiter>, now: int, served: Key, session: Session, key: Key)
    requires Good(rows, now) && Line(rows, served, now) != [] && Line(rows, served, now)[0] == session
    ensures Line(Without(rows, served, session), key, now)
            == if key == served then Line(rows, key, now)[1..] else Line(rows, key, now)
  {
    WithoutMoves(rows, now, served, session, key);
    var line := Line(rows, served, now);
    assert line[..0] + line[1..] == line[1..];
  }

  lemma OtherMoves(t: Tables, e: Event, key: Key)
    requires Good(t.waiters, e.now) && !e.op.Enqueue? && !e.op.Acquire?
    ensures var r := Exec(t, e.now, e.op);
            Line(r.0.waiters, key, e.now) == NextLine(Line(t.waiters, key, e.now), key, e.op, r.1.Granted?)
  {
    if e.op.Dequeue? {
      WithoutMoves(t.waiters, e.now, e.op.key, e.op.session, key);
    } else if e.op.Queue? {
      PruneMoves(t.waiters, e.now, key);
    }
  }

  /** Whatever the call, the line of every key moves first in, first out. */
  lemma LineMoves(t: Tables, e: Event, key: Key)
    requires Good(t.waiters, e.now) && Settled(t, e)
    ensures var r := Exec(t, e.now, e.op);
            Line(r.0.waiters, key, e.now) == NextLine(Line(t.waiters, key, e.now), key, e.op, r.1.Granted?)
  {
    if e.op.Enqueue? {
      if e.op.session != "" { EnqueueMoves(t, e.now, e.op, key); }
    } else if e.op.Acquire? {
      if e.op.session != "" { AcquireMoves(t, e.now, e.op, key); }
    } else {
      OtherMoves(t, e, key);
    }
  }
}
