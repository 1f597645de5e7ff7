/**
 The waiter table against a plain first-in first-out desk. The desk keeps one list per
 key, without timestamps, and drops an entry the moment it expires; the tables sort by
 enqueue time and delete lazily. Under a clock that never goes back, and enqueues whose
 ties the session order happens to settle first-come first-served, the two give the
 same answers.
 */
module LeaseQueue {
  import opened Basics
  import opened LeaseTables

  // ---- the desk -----------------------------------------------------------------------------

  datatype Desk = Desk(leases: map<Key, Lease>, lines: map<Key, seq<Entry>>)

  function LineAt(d: Desk, key: Key): seq<Entry> {
    if key in d.lines then d.lines[key] else []
  }

  function Alive(q: seq<Entry>, now: int): seq<Entry> {
    if q == [] then []
    else if Last(q).expires > now then Alive(Front(q), now) + [Last(q)]
    else Alive(Front(q), now)
  }

  /** Every expired entry leaves at once. */
  function Expire(d: Desk, now: int): Desk {
    d.(lines := map key | key in d.lines :: Alive(d.lines[key], now))
  }

  /** A newcomer goes to the end; somebody already in line keeps the place and lives longer. */
  function JoinLine(q: seq<Entry>, session: Session, expires: int): seq<Entry> {
    var n := Ahead(Names(q), session);
    if n < |q| then q[n := Entry(session, expires)] else q + [Entry(session, expires)]
  }

  function LeaveLine(q: seq<Entry>, session: Session): seq<Entry> {
    var n := Ahead(Names(q), session);
    if n < |q| then q[..n] + q[n + 1..] else q
  }

  function Joined(d: Desk, now: int, w: Waiter): Desk {
    var e := Expire(d, now);
    e.(lines := e.lines[w.key := JoinLine(LineAt(e, w.key), w.session, w.expires)])
  }

  function DeskExec(d0: Desk, now: int, op: Op): (Desk, Reply) {
    var d := Expire(d0, now);
    match op
    case Acquire(key, session, ttl) =>
      if session == "" then (d, Rejected)
      else
        var q, lease := LineAt(d, key), Row(d.leases, key);
        if (q != [] && q[0].session != session) || !Free(d.leases, key, now) then
          (d, Refused(lease.holder, lease.expires, lease.fence, if q == [] then "" else q[0].session,
                      Ahead(Names(q), session)))
        else
          (Desk(AfterGrant(d.leases, key, session, now, ttl), if q == [] then d.lines else d.lines[key := q[1..]]),
           Granted(lease.fence + 1, now + ttl))
    case Enqueue(key, session, ttl) =>
      if session == "" then (d, Rejected)
      else
        var d' := Joined(d0, now, NewWaiter(key, session, now, ttl));
        (d', Position(Ahead(Names(LineAt(d', key)), session)))
    case Dequeue(key, session) =>
      if session == "" then (d, Dequeued(false))
      else
        var q := LineAt(d, key);
        (d.(lines := d.lines[key := LeaveLine(q, session)]), Dequeued(session in Names(q)))
    case Queue(key) =>
      var held := Held(d.leases, key, now);
      (d, Snapshot(held, if held then d.leases[key].holder else "", Names(LineAt(d, key))))
    case Renew(key, session, ttl) =>
      var (t, r) := RenewStep(Tables(d.leases, []), now, key, session, ttl); (d.(leases := t.leases), r)
    case Release(key, session) =>
      var (t, r) := ReleaseStep(Tables(d.leases, []), key, session); (d.(leases := t.leases), r)
    case Reclaim(key) =>
      var (t, r) := ReclaimStep(Tables(d.leases, []), now, key); (d.(leases := t.leases), r)
  }

  // ---- total order of the queue ----------------------------------------------------------------

  lemma {:induction false} LessIrreflexive(a: string)
    ensures !Less(a, a)
  {
    if a != [] { LessIrreflexive(a[1..]); }
  }

  lemma {:induction false} LessTransitive(a: string, b: string, c: string)
    requires Less(a, b) && Less(b, c)
    ensures Less(a, c)
  {
    if a != [] && a[0] == b[0] == c[0] { LessTransitive(a[1..], b[1..], c[1..]); }
  }

  lemma {:induction false} LessTotal(a: string, b: string)
    ensures a == b || Less(a, b) || Less(b, a)
  {
    if a != [] && b != [] && a[0] == b[0] {
      LessTotal(a[1..], b[1..]);
      assert a == [a[0]] + a[1..] && b == [b[0]] + b[1..];
    }
  }

  predicate InOrder(s: seq<Waiter>) {
    forall i, j | 0 <= i < j < |s| :: Before(s[i], s[j])
  }

  lemma BeforeTransitive(a: Waiter, b: Waiter, c: Waiter)
    requires Before(a, b) && Before(b, c)
    ensures Before(a, c)
  {
    if a.enqueued == b.enqueued == c.enqueued { LessTransitive(a.session, b.session, c.session); }
  }

  lemma {:induction false} InsertInOrder(s: seq<Waiter>, w: Waiter)
    requires InOrder(s) && forall i | 0 <= i < |s| :: s[i].session != w.session
    ensures InOrder(InsertSorted(s, w))
  {
    if s != [] {
      if Before(Last(s), w) {
        forall i | 0 <= i < |s| ensures Before(s[i], w) {
          if i < |s| - 1 { BeforeTransitive(s[i], Last(s), w); }
        }
      } else {
        LessTotal(Last(s).session, w.session);
        InsertInOrder(Front(s), w);
        var r := InsertSorted(Front(s), w);
        InsertPermutes(Front(s), w);
        forall i | 0 <= i < |r| ensures Before(r[i], Last(s)) {
          assert r[i] in multiset(r);
          assert r[i] in Front(s) || r[i] == w;
        }
      }
    }
  }

  /** ORDER BY is an ordering: the same rows, in strictly ascending queue order. */
  lemma {:induction false} SortedInOrder(s: seq<Waiter>)
    requires Distinct(Sessions(s))
    ensures InOrder(Sorted(s)) && multiset(Sorted(s)) == multiset(s)
  {
    if s != [] {
      SortedInOrder(Front(s));
      var f := Sorted(Front(s));
      SortedPermutes(Front(s));
      forall i | 0 <= i < |f| ensures f[i].session != Last(s).session {
        assert f[i] in multiset(f);
        assert f[i] in Front(s);
      }
      InsertInOrder(f, Last(s));
    }
    SortedPermutes(s);
  }

  /** Rows already in queue order stay where they are. */
  lemma {:induction false} SortedIdentity(s: seq<Waiter>)
    requires InOrder(s)
    ensures Sorted(s) == s
  {
    if s != [] {
      SortedIdentity(Front(s));
      assert Front(s) == [] || Before(Last(Front(s)), Last(s));
      assert Front(s) + [Last(s)] == s;
    }
  }

  // ---- the waiter table as a list per key ---------------------------------------------------------

  /** The live waiters of a key in insertion order. */
  function Q(rows: seq<Waiter>, key: Key, now: int): seq<Entry> {
    Entries(Live(rows, key, now))
  }

  /** Rows of one key are in queue order, one per session, and none was enqueued after the clock. */
  predicate Good(rows: seq<Waiter>, clock: int) {
    && (forall i | 0 <= i < |rows| :: rows[i].enqueued <= clock)
    && (forall i, j | 0 <= i < j < |rows| && rows[i].key == rows[j].key ::
          Before(rows[i], rows[j]) && rows[i].session != rows[j].session)
  }

  lemma GoodFront(rows: seq<Waiter>, clock: int)
    requires Good(rows, clock) && rows != []
    ensures Good(Front(rows), clock)
  {
  }

  lemma QStep(rows: seq<Waiter>, key: Key, now: int)
    requires rows != []
    ensures Q(rows, key, now) == if Last(rows).key == key && Last(rows).expires > now
                                 then Q(Front(rows), key, now) + [Entry(Last(rows).session, Last(rows).expires)]
                                 else Q(Front(rows), key, now)
  {
  }

  /** Rows of the last row's key come before it. */
  lemma BeforeLast(rows: seq<Waiter>, clock: int, w: Waiter)
    requires Good(rows, clock) && rows != [] && w in Front(rows) && w.key == Last(rows).key
    ensures Before(w, Last(rows)) && w.session != Last(rows).session
  {
    var k :| 0 <= k < |rows| - 1 && rows[k] == w;
  }

  lemma {:induction false} LiveInOrder(rows: seq<Waiter>, key: Key, now: int, clock: int)
    requires Good(rows, clock)
    ensures InOrder(Live(rows, key, now)) && Distinct(Sessions(Live(rows, key, now)))
  {
    if rows != [] {
      GoodFront(rows, clock);
      LiveInOrder(Front(rows), key, now, clock);
      var f := Live(Front(rows), key, now);
      LiveMembers(Front(rows), key, now);
      forall i | 0 <= i < |f| && Last(rows).key == key
        ensures Before(f[i], Last(rows)) && f[i].session != Last(rows).session
      {
        assert f[i] in f;
        BeforeLast(rows, clock, f[i]);
      }
    }
  }

  /** With rows in queue order the sorted line is the list. */
  lemma LineIsQ(rows: seq<Waiter>, key: Key, now: int, clock: int)
    requires Good(rows, clock)
    ensures Line(rows, key, now) == Names(Q(rows, key, now))
    ensures Distinct(Names(Q(rows, key, now)))
  {
    LiveInOrder(rows, key, now, clock);
    SortedIdentity(Live(rows, key, now));
  }

  // ---- pruning and time ------------------------------------------------------------------------------

  lemma {:induction false} QOfUnexpired(rows: seq<Waiter>, key: Key, now: int)
    ensures Q(Unexpired(rows, now), key, now) == Q(rows, key, now)
  {
    if rows != [] {
      QOfUnexpired(Front(rows), key, now);
      QStep(rows, key, now);
      if Last(rows).expires > now {
        var u := Unexpired(Front(rows), now) + [Last(rows)];
        assert Front(u) == Unexpired(Front(rows), now);
        QStep(u, key, now);
      }
    }
  }

  lemma {:induction false} QLater(rows: seq<Waiter>, key: Key, now: int, later: int)
    requires now <= later
    ensures Q(rows, key, later) == Alive(Q(rows, key, now), later)
  {
    if rows != [] {
      QLater(Front(rows), key, now, later);
      QStep(rows, key, now);
      QStep(rows, key, later);
      if Last(rows).key == key && Last(rows).expires > now {
        assert Front(Q(rows, key, now)) == Q(Front(rows), key, now);
      }
    }
  }

  lemma {:induction false} AliveLater(q: seq<Entry>, now: int, later: int)
    requires now <= later
    ensures Alive(Alive(q, now), later) == Alive(q, later)
  {
    if q != [] {
      AliveLater(Front(q), now, later);
      if Last(q).expires > now {
        assert Front(Alive(Front(q), now) + [Last(q)]) == Alive(Front(q), now);
      }
    }
  }

  lemma {:induction false} UnexpiredGood(rows: seq<Waiter>, now: int, clock: int)
    requires Good(rows, clock)
    ensures Good(Unexpired(rows, now), clock)
  {
    if rows != [] {
      GoodFront(rows, clock);
      UnexpiredGood(Front(rows), now, clock);
      UnexpiredMembers(Front(rows), now);
      AppendGood(Unexpired(Front(rows), now), rows, clock);
    }
  }

  lemma AppendGood(s: seq<Waiter>, rows: seq<Waiter>, clock: int)
    requires Good(s, clock) && Good(rows, clock) && rows != [] && forall w | w in s :: w in Front(rows)
    ensures Good(s + [Last(rows)], clock)
  {
    forall i | 0 <= i < |s| && s[i].key == Last(rows).key
      ensures Before(s[i], Last(rows)) && s[i].session != Last(rows).session
    {
      assert s[i] in s;
      BeforeLast(rows, clock, s[i]);
    }
  }

  lemma {:induction false} WithoutGood(rows: seq<Waiter>, key: Key, session: Session, clock: int)
    requires Good(rows, clock)
    ensures Good(Without(rows, key, session), clock)
  {
    if rows != [] {
      GoodFront(rows, clock);
      WithoutGood(Front(rows), key, session, clock);
      WithoutMembers(Front(rows), key, session);
      AppendGood(Without(Front(rows), key, session), rows, clock);
    }
  }

  // ---- joining and leaving ------------------------------------------------------------------------------

  lemma {:induction false} QRefreshed(rows: seq<Waiter>, w: Waiter, key: Key, now: int)
    requires w.expires > now && forall i | 0 <= i < |rows| :: rows[i].expires > now
    ensures |Q(Refreshed(rows, w), key, now)| == |Q(rows, key, now)|
    ensures forall i | 0 <= i < |Q(rows, key, now)| :: var e := Q(rows, key, now)[i];
              Q(Refreshed(rows, w), key, now)[i] ==
                if key == w.key && e.session == w.session then Entry(w.session, w.expires) else e
  {
    if rows != [] {
      QRefreshed(Front(rows), w, key, now);
      var r := Refreshed(rows, w);
      assert Front(r) == Refreshed(Front(rows), w);
      QStep(rows, key, now);
      QStep(r, key, now);
    }
  }

  lemma {:induction false} QHas(rows: seq<Waiter>, key: Key, session: Session, now: int)
    requires forall i | 0 <= i < |rows| :: rows[i].expires > now
    ensures HasRow(rows, key, session) <==> session in Names(Q(rows, key, now))
  {
    var l, q := Live(rows, key, now), Q(rows, key, now);
    LiveMembers(rows, key, now);
    if HasRow(rows, key, session) {
      var i :| 0 <= i < |rows| && rows[i].key == key && rows[i].session == session;
      assert rows[i] in l;
      var k :| 0 <= k < |l| && l[k] == rows[i];
      assert Names(q)[k] == session;
    }
    if session in Names(q) {
      var k :| 0 <= k < |q| && Names(q)[k] == session;
      assert l[k] in l;
      var i :| 0 <= i < |rows| && rows[i] == l[k];
    }
  }

  /** An upsert on the pruned table joins the line of its key and leaves the other lines alone. */
  lemma QUpsert(rows: seq<Waiter>, w: Waiter, key: Key, now: int, clock: int)
    requires Good(rows, clock) && w.expires > now && forall i | 0 <= i < |rows| :: rows[i].expires > now
    ensures Q(Upsert(rows, w), key, now) ==
              if key == w.key then JoinLine(Q(rows, key, now), w.session, w.expires) else Q(rows, key, now)
  {
    QHas(rows, w.key, w.session, now);
    if HasRow(rows, w.key, w.session) {
      QRefreshed(rows, w, key, now);
      assert Distinct(Names(Q(rows, key, now))) by { LineIsQ(rows, key, now, clock); }
      if key == w.key {
        ResetAtPlace(Q(rows, key, now), Q(Refreshed(rows, w), key, now), w.session, w.expires);
      }
    } else {
      assert Front(rows + [w]) == rows;
      QStep(rows + [w], key, now);
    }
  }

  lemma ResetAtPlace(q: seq<Entry>, r: seq<Entry>, session: Session, expires: int)
    requires Distinct(Names(q)) && session in Names(q) && |r| == |q|
    requires forall i | 0 <= i < |q| :: r[i] == if q[i].session == session then Entry(session, expires) else q[i]
    ensures r == JoinLine(q, session, expires)
  {
  }

  lemma UpsertGood(rows: seq<Waiter>, w: Waiter, clock: int)
    requires Good(rows, clock) && w.enqueued == clock
    requires !HasRow(rows, w.key, w.session) ==>
               forall i | 0 <= i < |rows| && rows[i].key == w.key && rows[i].enqueued == clock ::
                 Less(rows[i].session, w.session)
    ensures Good(Upsert(rows, w), clock)
  {
    RefreshedAt(rows, w);
  }

  function Drop(q: seq<Entry>, session: Session): seq<Entry> {
    if q == [] then []
    else if Last(q).session == session then Drop(Front(q), session)
    else Drop(Front(q), session) + [Last(q)]
  }

  lemma {:induction false} QWithout(rows: seq<Waiter>, key: Key, session: Session, other: Key, now: int)
    ensures Q(Without(rows, key, session), other, now) ==
              if other == key then Drop(Q(rows, key, now), session) else Q(rows, other, now)
  {
    if rows != [] {
      QWithout(Front(rows), key, session, other, now);
      QStep(rows, other, now);
      var l := Last(rows);
      if !(l.key == key && l.session == session) {
        var r := Without(Front(rows), key, session) + [l];
        assert Front(r) == Without(Front(rows), key, session);
        QStep(r, other, now);
      }
      if l.key == other && l.expires > now {
        assert Front(Q(rows, other, now)) == Q(Front(rows), other, now);
      }
    }
  }

  lemma {:induction false} DropAbsent(q: seq<Entry>, session: Session)
    requires session !in Names(q)
    ensures Drop(q, session) == q
  {
    if q != [] {
      assert Names(q)[|q| - 1] == Last(q).session;
      assert Names(Front(q)) == Names(q)[..|q| - 1];
      DropAbsent(Front(q), session);
      assert Front(q) + [Last(q)] == q;
    }
  }

  lemma {:induction false} DropConcat(a: seq<Entry>, b: seq<Entry>, session: Session)
    ensures Drop(a + b, session) == Drop(a, session) + Drop(b, session)
    decreases |b|
  {
    if b == [] {
      assert a + b == a;
    } else {
      DropConcat(a, Front(b), session);
      assert Front(a + b) == a + Front(b) && Last(a + b) == Last(b);
    }
  }

  lemma DropAt(a: seq<Entry>, e: Entry, b: seq<Entry>)
    requires e.session !in Names(a) && e.session !in Names(b)
    ensures Drop(a + [e] + b, e.session) == a + b
  {
    DropConcat(a + [e], b, e.session);
    assert Front(a + [e]) == a;
    DropAbsent(a, e.session);
    DropAbsent(b, e.session);
  }

  /** With one entry per session, deleting by session removes the entry at its place. */
  lemma DropIsLeave(q: seq<Entry>, session: Session)
    requires Distinct(Names(q))
    ensures Drop(q, session) == LeaveLine(q, session)
  {
    var n := Ahead(Names(q), session);
    if n == |q| {
      DropAbsent(q, session);
    } else {
      var a, b := q[..n], q[n + 1..];
      assert Names(q)[n] == session && Names(a) == Names(q)[..n];
      forall i | 0 <= i < |b| ensures Names(b)[i] != session {
        assert b[i] == q[n + 1 + i];
      }
      assert q == a + [q[n]] + b;
      DropAt(a, q[n], b);
    }
  }

  // ---- the tables refine the desk -----------------------------------------------------------------------

  /** Same leases, and the live waiters of every key are the desk's line. */
  ghost predicate Rel(t: Tables, d: Desk, now: int) {
    t.leases == d.leases && forall key :: Q(t.waiters, key, now) == Alive(LineAt(d, key), now)
  }

  lemma RelLater(t: Tables, d: Desk, now: int, later: int)
    requires Rel(t, d, now) && now <= later
    ensures Rel(t, d, later)
  {
    forall key ensures Q(t.waiters, key, later) == Alive(LineAt(d, key), later) {
      QLater(t.waiters, key, now, later);
      AliveLater(LineAt(d, key), now, later);
    }
  }

  /** Pruning the table is expiring the desk: both leave exactly the live line. */
  lemma PruneIsExpire(t: Tables, d: Desk, now: int, key: Key)
    requires Rel(t, d, now)
    ensures var rows, q := Unexpired(t.waiters, now), LineAt(Expire(d, now), key);
            Q(rows, key, now) == q && q == Alive(LineAt(d, key), now) && Alive(q, now) == q
  {
    QOfUnexpired(t.waiters, key, now);
    AliveLater(LineAt(d, key), now, now);
  }

  lemma {:induction false} QAlive(rows: seq<Waiter>, key: Key, now: int)
    ensures Alive(Q(rows, key, now), now) == Q(rows, key, now)
  {
    if rows != [] {
      QAlive(Front(rows), key, now);
      QStep(rows, key, now);
      if Last(rows).key == key && Last(rows).expires > now {
        assert Front(Q(rows, key, now)) == Q(Front(rows), key, now);
      }
    }
  }

  lemma UnexpiredAlive(waiters: seq<Waiter>, now: int)
    ensures var rows := Unexpired(waiters, now); forall i | 0 <= i < |rows| :: rows[i].expires > now
  {
    var rows := Unexpired(waiters, now);
    UnexpiredMembers(waiters, now);
    forall i | 0 <= i < |rows| ensures rows[i].expires > now { assert rows[i] in rows; }
  }

  /** The tie rule: a newcomer's enqueue time exceeds those in its line, or the session order agrees with arrival. */
  predicate Settled(t: Tables, e: Event) {
    e.op.Enqueue? ==>
      var rows := Unexpired(t.waiters, e.now);
      !HasRow(rows, e.op.key, e.op.session) ==>
        forall i | 0 <= i < |rows| && rows[i].key == e.op.key && rows[i].enqueued == e.now ::
          Less(rows[i].session, e.op.session)
  }

  lemma GoodEnqueue(t: Tables, now: int, op: Op)
    requires Good(t.waiters, now) && op.Enqueue? && Settled(t, At(now, op))
    ensures Good(EnqueueStep(t, now, op.key, op.session, op.ttl).0.waiters, now)
  {
    UnexpiredGood(t.waiters, now, now);
    UpsertGood(Unexpired(t.waiters, now), NewWaiter(op.key, op.session, now, op.ttl), now);
  }

  lemma AcquireRows(t: Tables, now: int, op: Op)
    requires op.Acquire?
    ensures var rows, w := Unexpired(t.waiters, now), Exec(t, now, op).0.waiters;
            w == t.waiters || w == rows || w == Without(rows, op.key, op.session)
  {
  }

  lemma GoodAcquire(t: Tables, now: int, op: Op)
    requires Good(t.waiters, now) && op.Acquire?
    ensures Good(AcquireStep(t, now, op.key, op.session, op.ttl).0.waiters, now)
  {
    var rows := Unexpired(t.waiters, now);
    UnexpiredGood(t.waiters, now, now);
    WithoutGood(rows, op.key, op.session, now);
    AcquireRows(t, now, op);
  }

  lemma GoodStep(t: Tables, e: Event)
    requires Good(t.waiters, e.now) && Settled(t, e)
    ensures Good(Exec(t, e.now, e.op).0.waiters, e.now)
  {
    if e.op.Enqueue? {
      GoodEnqueue(t, e.now, e.op);
    } else if e.op.Acquire? {
      GoodAcquire(t, e.now, e.op);
    } else if e.op.Dequeue? {
      WithoutGood(t.waiters, e.op.key, e.op.session, e.now);
    } else {
      UnexpiredGood(t.waiters, e.now, e.now);
    }
  }

  predicate SameReply(op: Op, r: Reply, s: Reply) {
    op.Dequeue? || r == s
  }

  /** The call leaves related states and gives the same answer on both sides. */
  ghost predicate Matches(t: Tables, d: Desk, now: int, op: Op) {
    && Rel(Exec(t, now, op).0, DeskExec(d, now, op).0, now)
    && SameReply(op, Exec(t, now, op).1, DeskExec(d, now, op).1)
  }

  lemma UpsertLine(t: Tables, d: Desk, now: int, w: Waiter, key: Key)
    requires Rel(t, d, now) && Good(t.waiters, now) && w.expires > now
    ensures var rows := Upsert(Unexpired(t.waiters, now), w);
            Q(rows, key, now) == LineAt(Joined(d, now, w), key) == Alive(LineAt(Joined(d, now, w), key), now)
  {
    var rows := Unexpired(t.waiters, now);
    UnexpiredGood(t.waiters, now, now);
    UnexpiredAlive(t.waiters, now);
    PruneIsExpire(t, d, now, key);
    QUpsert(rows, w, key, now, now);
    QAlive(Upsert(rows, w), key, now);
  }

  lemma UpsertRefines(t: Tables, d: Desk, now: int, w: Waiter)
    requires Rel(t, d, now) && Good(t.waiters, now) && w.expires > now
    ensures Rel(t.(waiters := Upsert(Unexpired(t.waiters, now), w)), Joined(d, now, w), now)
  {
    forall key ensures Q(Upsert(Unexpired(t.waiters, now), w), key, now) == Alive(LineAt(Joined(d, now, w), key), now) {
      UpsertLine(t, d, now, w, key);
    }
  }

  lemma JoinedLine(t: Tables, d: Desk, now: int, w: Waiter, rows: seq<Waiter>)
    requires Rel(t, d, now) && Good(t.waiters, now) && w.expires > now
    requires rows == Upsert(Unexpired(t.waiters, now), w) && Good(rows, now)
    ensures Line(rows, w.key, now) == Names(LineAt(Joined(d, now, w), w.key))
  {
    UpsertLine(t, d, now, w, w.key);
    LineIsQ(rows, w.key, now, now);
  }

  lemma EnqueueAnswers(t: Tables, d: Desk, now: int, op: Op)
    requires op.Enqueue? && op.session != ""
    ensures var rows := Upsert(Unexpired(t.waiters, now), NewWaiter(op.key, op.session, now, op.ttl));
            Exec(t, now, op) == (t.(waiters := rows), Position(Ahead(Line(rows, op.key, now), op.session)))
    ensures var d' := Joined(d, now, NewWaiter(op.key, op.session, now, op.ttl));
            DeskExec(d, now, op) == (d', Position(Ahead(Names(LineAt(d', op.key)), op.session)))
  {
  }

  lemma EnqueueRefines(t: Tables, d: Desk, now: int, op: Op)
    requires Rel(t, d, now) && Good(t.waiters, now) && op.Enqueue? && op.session != ""
    requires Good(Upsert(Unexpired(t.waiters, now), NewWaiter(op.key, op.session, now, op.ttl)), now)
    ensures Matches(t, d, now, op)
  {
    var w := NewWaiter(op.key, op.session, now, op.ttl);
    EnqueueAnswers(t, d, now, op);
    JoinedLine(t, d, now, w, Upsert(Unexpired(t.waiters, now), w));
    UpsertRefines(t, d, now, w);
  }

  lemma WithoutRefines(t: Tables, d: Desk, now: int, rows: seq<Waiter>, key: Key, session: Session,
                       leases: map<Key, Lease>)
    requires Rel(t, d, now) && Good(rows, now) && (rows == t.waiters || rows == Unexpired(t.waiters, now))
    ensures var q := LineAt(Expire(d, now), key);
            Rel(Tables(leases, Without(rows, key, session)),
                Desk(leases, Expire(d, now).lines[key := LeaveLine(q, session)]), now)
  {
    var e := Expire(d, now);
    var q := LineAt(e, key);
    var t', d' := Tables(leases, Without(rows, key, session)), Desk(leases, e.lines[key := LeaveLine(q, session)]);
    LineIsQ(rows, key, now, now);
    forall k ensures Q(t'.waiters, k, now) == Alive(LineAt(d', k), now) {
      PruneIsExpire(t, d, now, k);
      QOfUnexpired(t.waiters, k, now);
      QWithout(rows, key, session, k, now);
      QAlive(t'.waiters, k, now);
      if k == key { DropIsLeave(q, session); }
    }
  }

  lemma PrunedRefines(t: Tables, d: Desk, now: int)
    requires Rel(t, d, now)
    ensures Rel(t.(waiters := Unexpired(t.waiters, now)), Expire(d, now), now) && Rel(t, Expire(d, now), now)
  {
    forall key ensures Q(Unexpired(t.waiters, now), key, now) == Alive(LineAt(Expire(d, now), key), now)
      ensures Q(t.waiters, key, now) == Alive(LineAt(Expire(d, now), key), now)
    {
      PruneIsExpire(t, d, now, key);
      QOfUnexpired(t.waiters, key, now);
    }
  }

  lemma SameLine(t: Tables, d: Desk, now: int, key: Key)
    requires Rel(t, d, now) && Good(t.waiters, now)
    ensures Line(Unexpired(t.waiters, now), key, now) == Names(LineAt(Expire(d, now), key))
    ensures Line(t.waiters, key, now) == Names(LineAt(Expire(d, now), key))
    ensures Good(Unexpired(t.waiters, now), now)
  {
    UnexpiredGood(t.waiters, now, now);
    PruneIsExpire(t, d, now, key);
    QOfUnexpired(t.waiters, key, now);
    LineIsQ(Unexpired(t.waiters, now), key, now, now);
    LineIsQ(t.waiters, key, now, now);
  }

  lemma GrantRefines(t: Tables, d: Desk, now: int, key: Key, session: Session, leases: map<Key, Lease>)
    requires Rel(t, d, now) && Good(t.waiters, now)
    requires var q := LineAt(Expire(d, now), key); q != [] && q[0].session == session
    ensures Rel(Tables(leases, Without(Unexpired(t.waiters, now), key, session)),
                Desk(leases, Expire(d, now).lines[key := LineAt(Expire(d, now), key)[1..]]), now)
  {
    SameLine(t, d, now, key);
    var q := LineAt(Expire(d, now), key);
    assert LeaveLine(q, session) == q[1..] by {
      assert Names(q)[0] == session;
    }
    WithoutRefines(t, d, now, Unexpired(t.waiters, now), key, session, leases);
  }

  lemma LeasesApart(t: Tables, d: Desk, now: int, leases: map<Key, Lease>)
    requires Rel(t, d, now)
    ensures Rel(Tables(leases, t.waiters), Desk(leases, d.lines), now)
  {
    forall key ensures Q(t.waiters, key, now) == Alive(LineAt(Desk(leases, d.lines), key), now) {
      assert LineAt(Desk(leases, d.lines), key) == LineAt(d, key);
    }
  }

  /** Refused on both sides, or granted on both sides, with the same reply. */
  lemma AcquireAnswers(t: Tables, d: Desk, now: int, op: Op)
    requires op.Acquire? && op.session != "" && t.leases == d.leases
    requires Line(Unexpired(t.waiters, now), op.key, now) == Names(LineAt(Expire(d, now), op.key))
    ensures var rows, e := Unexpired(t.waiters, now), Expire(d, now);
            var q, leases := LineAt(e, op.key), AfterGrant(t.leases, op.key, op.session, now, op.ttl);
            Exec(t, now, op).1 == DeskExec(d, now, op).1 &&
            if (q != [] && q[0].session != op.session) || !Free(t.leases, op.key, now) then
              Exec(t, now, op).0 == Tables(t.leases, rows) && DeskExec(d, now, op).0 == e
            else if q == [] then
              Exec(t, now, op).0 == Tables(leases, rows) && DeskExec(d, now, op).0 == Desk(leases, e.lines)
            else
              Exec(t, now, op).0 == Tables(leases, Without(rows, op.key, op.session))
              && DeskExec(d, now, op).0 == Desk(leases, e.lines[op.key := q[1..]])
  {
    var q := LineAt(Expire(d, now), op.key);
    assert q != [] ==> Names(q)[0] == q[0].session;
  }

  lemma AcquireRefines(t: Tables, d: Desk, now: int, op: Op)
    requires Rel(t, d, now) && Good(t.waiters, now) && op.Acquire? && op.session != ""
    ensures Matches(t, d, now, op)
  {
    var rows, e := Unexpired(t.waiters, now), Expire(d, now);
    var q, leases := LineAt(e, op.key), AfterGrant(t.leases, op.key, op.session, now, op.ttl);
    SameLine(t, d, now, op.key);
    PrunedRefines(t, d, now);
    AcquireAnswers(t, d, now, op);
    LeasesApart(t.(waiters := rows), e, now, leases);
    if q != [] && q[0].session == op.session {
      GrantRefines(t, d, now, op.key, op.session, leases);
    }
  }

  /** One call: related states, the same answer, related states again. */
  lemma StepRefines(t: Tables, d: Desk, e: Event)
    requires Rel(t, d, e.now) && Good(t.waiters, e.now) && Settled(t, e)
    ensures Matches(t, d, e.now, e.op) && Good(Exec(t, e.now, e.op).0.waiters, e.now)
  {
    GoodStep(t, e);
    PrunedRefines(t, d, e.now);
    match e.op
    case Enqueue(_, session, _) =>
      if session != "" {
        EnqueueAnswers(t, d, e.now, e.op);
        EnqueueRefines(t, d, e.now, e.op);
      }
    case Acquire(_, session, _) =>
      if session != "" { AcquireRefines(t, d, e.now, e.op); }
    case Dequeue(key, session) =>
      if session != "" { WithoutRefines(t, d, e.now, t.waiters, key, session, t.leases); }
    case Queue(key) =>
      SameLine(t, d, e.now, key);
    case _ => LeaseCallRefines(t, d, e);
  }

  /** Calls on the lease row alone. */
  lemma LeaseCallRefines(t: Tables, d: Desk, e: Event)
    requires Rel(t, Expire(d, e.now), e.now) && (e.op.Renew? || e.op.Release? || e.op.Reclaim?)
    ensures Matches(t, d, e.now, e.op)
  {
    var t', d' := Exec(t, e.now, e.op).0, DeskExec(d, e.now, e.op).0;
    assert t'.leases == d'.leases && t'.waiters == t.waiters && d'.lines == Expire(d, e.now).lines;
    forall key ensures Q(t'.waiters, key, e.now) == Alive(LineAt(d', key), e.now) {
      assert LineAt(d', key) == LineAt(Expire(d, e.now), key);
    }
  }
}
