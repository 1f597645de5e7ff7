/**
 Places in a line over whole histories: exactly when a call moves a waiter back, and how often a
 waiter can be overtaken. No assumption on ties is made here: any table with one row per key and
 session counts, so any table a history can reach.
 */
module LeaseTies {
  import opened Basics
  import opened LeaseTables
  import opened LeaseQueue
  import opened LeaseFairness

  /** One row per key and session, and none enqueued after the clock. */
  predicate Keyed(rows: seq<Waiter>, clock: int) {
    && (forall i, j | 0 <= i < j < |rows| && rows[i].key == rows[j].key :: rows[i].session != rows[j].session)
    && (forall i | 0 <= i < |rows| :: rows[i].enqueued <= clock)
  }

  // ---- a place is a count ---------------------------------------------------------------

  /** How many rows come before w in queue order. */
  function Count(rows: seq<Waiter>, w: Waiter): nat {
    if rows == [] then 0 else Count(Front(rows), w) + if Before(Last(rows), w) then 1 else 0
  }

  lemma CountAppend(rows: seq<Waiter>, x: Waiter, w: Waiter)
    ensures Count(rows + [x], w) == Count(rows, w) + if Before(x, w) then 1 else 0
  {
    assert Front(rows + [x]) == rows;
  }

  lemma {:induction false} CountInsert(s: seq<Waiter>, x: Waiter, w: Waiter)
    ensures Count(InsertSorted(s, x), w) == Count(s, w) + if Before(x, w) then 1 else 0
  {
    if s == [] || Before(Last(s), x) {
      CountAppend(s, x, w);
    } else {
      CountInsert(Front(s), x, w);
      CountAppend(InsertSorted(Front(s), x), Last(s), w);
    }
  }

  /** Sorting does not change how many rows come before another. */
  lemma {:induction false} CountSorted(s: seq<Waiter>, w: Waiter)
    ensures Count(Sorted(s), w) == Count(s, w)
  {
    if s != [] {
      CountSorted(Front(s), w);
      CountInsert(Sorted(Front(s)), Last(s), w);
    }
  }

  lemma BeforeStrict(a: Waiter, b: Waiter)
    requires Before(a, b)
    ensures !Before(b, a) && a != b
  {
    if Before(b, a) { BeforeTransitive(a, b, a); }
    LessIrreflexive(a.session);
  }

  /** Of rows in order, exactly those at smaller places come before one. */
  lemma {:induction false} CountInOrder(r: seq<Waiter>, m: nat, n: nat)
    requires InOrder(r) && m <= |r| && n < |r|
    ensures Count(r[..m], r[n]) == if m <= n then m else n
  {
    if m > 0 {
      CountInOrder(r, m - 1, n);
      assert Front(r[..m]) == r[..m - 1] && Last(r[..m]) == r[m - 1];
      if m - 1 > n {
        BeforeStrict(r[n], r[m - 1]);
      } else if m - 1 == n {
        LessIrreflexive(r[n].session);
      }
    }
  }

  lemma SortedHas(l: seq<Waiter>, w: Waiter)
    ensures w in Sorted(l) <==> w in l
  {
    SortedPermutes(l);
    assert w in multiset(l) <==> w in l;
    assert w in multiset(Sorted(l)) <==> w in Sorted(l);
  }

  /** The place of a row's session in the sorted line is the number of rows before it. */
  lemma PlaceIsCount(l: seq<Waiter>, w: Waiter)
    requires Distinct(Sessions(l)) && w in l
    ensures Ahead(Sessions(Sorted(l)), w.session) == Count(l, w)
  {
    var r := Sorted(l);
    SortedInOrder(l);
    SortedHas(l, w);
    var n :| 0 <= n < |r| && r[n] == w;
    CountInOrder(r, |r|, n);
    assert r[..|r|] == r;
    CountSorted(l, w);
    forall k | 0 <= k < n ensures r[k].session != w.session {
      SortedHas(l, r[k]);
      BeforeStrict(r[k], w);
      OneRowEach(l, r[k], w);
    }
    AheadIsFirst(Sessions(r), w.session, n);
  }

  lemma OneRowEach(l: seq<Waiter>, a: Waiter, b: Waiter)
    requires Distinct(Sessions(l)) && a in l && b in l && a != b
    ensures a.session != b.session
  {
    var i :| 0 <= i < |l| && l[i] == a;
    var j :| 0 <= j < |l| && l[j] == b;
  }

  // ---- lines of keyed tables ----------------------------------------------------------------

  lemma KeyedFront(rows: seq<Waiter>, clock: int, w: Waiter)
    requires Keyed(rows, clock) && rows != []
    ensures Keyed(Front(rows), clock)
    ensures w in Front(rows) && w.key == Last(rows).key ==> w.session != Last(rows).session
  {
    if w in Front(rows) {
      var i :| 0 <= i < |rows| - 1 && rows[i] == w;
    }
  }

  lemma {:induction false} LiveDistinct(rows: seq<Waiter>, key: Key, now: int, clock: int)
    requires Keyed(rows, clock)
    ensures Distinct(Sessions(Live(rows, key, now)))
  {
    if rows != [] {
      var f := Live(Front(rows), key, now);
      KeyedFront(rows, clock, Last(rows));
      LiveDistinct(Front(rows), key, now, clock);
      LiveMembers(Front(rows), key, now);
      forall i | 0 <= i < |f| && Last(rows).key == key ensures f[i].session != Last(rows).session {
        assert f[i] in f;
        KeyedFront(rows, clock, f[i]);
      }
    }
  }

  /** In a keyed table the place of a live waiter is the number of live rows before it. */
  lemma PlaceOf(rows: seq<Waiter>, key: Key, now: int, clock: int, w: Waiter)
    requires Keyed(rows, clock) && w in Live(rows, key, now)
    ensures Ahead(Line(rows, key, now), w.session) == Count(Live(rows, key, now), w)
  {
    LiveDistinct(rows, key, now, clock);
    PlaceIsCount(Live(rows, key, now), w);
  }

  /** The row of a session in the line. */
  lemma RowInLine(rows: seq<Waiter>, key: Key, now: int, session: Session) returns (w: Waiter)
    requires session in Line(rows, key, now)
    ensures w in Live(rows, key, now) && w in rows && w.key == key && w.expires > now && w.session == session
  {
    var r := Sorted(Live(rows, key, now));
    var i :| 0 <= i < |r| && Sessions(r)[i] == session;
    w := r[i];
    SortedHas(Live(rows, key, now), w);
    LiveMembers(rows, key, now);
  }

  lemma {:induction false} LiveUnexpired(rows: seq<Waiter>, key: Key, now: int)
    ensures Live(Unexpired(rows, now), key, now) == Live(rows, key, now)
  {
    if rows != [] {
      LiveUnexpired(Front(rows), key, now);
      if Last(rows).expires > now {
        assert Front(Unexpired(Front(rows), now) + [Last(rows)]) == Unexpired(Front(rows), now);
      }
    }
  }

  lemma CountLive(rows: seq<Waiter>, l: Waiter, key: Key, now: int, w: Waiter)
    ensures Count(Live(rows + [l], key, now), w) ==
              Count(Live(rows, key, now), w) + if l.key == key && l.expires > now && Before(l, w) then 1 else 0
  {
    assert Front(rows + [l]) == rows;
    CountAppend(Live(rows, key, now), l, w);
  }

  /** Deleting rows brings nobody back. */
  lemma {:induction false} CountWithout(rows: seq<Waiter>, gone: Key, session: Session, key: Key, now: int, w: Waiter)
    ensures Count(Live(Without(rows, gone, session), key, now), w) <= Count(Live(rows, key, now), w)
  {
    if rows != [] {
      var l, rest := Last(rows), Without(Front(rows), gone, session);
      CountWithout(Front(rows), gone, session, key, now, w);
      assert Front(rows) + [l] == rows;
      CountLive(Front(rows), l, key, now, w);
      if !(l.key == gone && l.session == session) { CountLive(rest, l, key, now, w); }
    }
  }

  /** Refreshing an expiry moves nobody. */
  lemma {:induction false} CountRefreshed(rows: seq<Waiter>, x: Waiter, key: Key, now: int, w: Waiter)
    requires x.expires > now && forall i | 0 <= i < |rows| :: rows[i].expires > now
    ensures Count(Live(Refreshed(rows, x), key, now), w) == Count(Live(rows, key, now), w)
  {
    if rows != [] {
      var f := Refreshed(Front(rows), x);
      var l := Last(Refreshed(rows, x));
      CountRefreshed(Front(rows), x, key, now, w);
      assert Refreshed(rows, x) == f + [l] && rows == Front(rows) + [Last(rows)];
      CountLive(f, l, key, now, w);
      CountLive(Front(rows), Last(rows), key, now, w);
    }
  }

  lemma CountSame(rows: seq<Waiter>, a: Waiter, b: Waiter)
    requires a.enqueued == b.enqueued && a.session == b.session
    ensures Count(rows, a) == Count(rows, b)
  {
    if rows != [] { CountSame(Front(rows), a, b); }
  }

  // ---- every table a history reaches is keyed ----------------------------------------------------

  lemma KeyedAppend(rows: seq<Waiter>, w: Waiter, clock: int)
    requires Keyed(rows, clock) && w.enqueued <= clock && !HasRow(rows, w.key, w.session)
    ensures Keyed(rows + [w], clock)
  {
  }

  lemma KeyedSub(sub: seq<Waiter>, rows: seq<Waiter>, clock: int)
    requires rows != [] && Keyed(rows, clock) && Keyed(sub, clock) && forall w | w in sub :: w in Front(rows)
    ensures Keyed(sub + [Last(rows)], clock)
  {
    forall i | 0 <= i < |sub| ensures sub[i].key == Last(rows).key ==> sub[i].session != Last(rows).session {
      assert sub[i] in sub;
      KeyedFront(rows, clock, sub[i]);
    }
  }

  lemma {:induction false} KeyedUnexpired(rows: seq<Waiter>, now: int, clock: int)
    requires Keyed(rows, clock)
    ensures Keyed(Unexpired(rows, now), clock)
  {
    if rows != [] {
      KeyedFront(rows, clock, Last(rows));
      KeyedUnexpired(Front(rows), now, clock);
      UnexpiredMembers(Front(rows), now);
      KeyedSub(Unexpired(Front(rows), now), rows, clock);
    }
  }

  lemma {:induction false} KeyedWithout(rows: seq<Waiter>, key: Key, session: Session, clock: int)
    requires Keyed(rows, clock)
    ensures Keyed(Without(rows, key, session), clock)
  {
    if rows != [] {
      KeyedFront(rows, clock, Last(rows));
      KeyedWithout(Front(rows), key, session, clock);
      WithoutMembers(Front(rows), key, session);
      KeyedSub(Without(Front(rows), key, session), rows, clock);
    }
  }

  lemma KeyedUpsert(rows: seq<Waiter>, w: Waiter, clock: int)
    requires Keyed(rows, clock) && w.enqueued <= clock
    ensures Keyed(Upsert(rows, w), clock)
  {
    RefreshedAt(rows, w);
    if !HasRow(rows, w.key, w.session) { KeyedAppend(rows, w, clock); }
  }

  lemma KeyedStep(t: Tables, now: int, op: Op)
    requires Keyed(t.waiters, now)
    ensures Keyed(Exec(t, now, op).0.waiters, now)
  {
    var rows := Unexpired(t.waiters, now);
    KeyedUnexpired(t.waiters, now, now);
    if op.Enqueue? {
      KeyedUpsert(rows, NewWaiter(op.key, op.session, now, op.ttl), now);
    } else if op.Dequeue? {
      KeyedWithout(t.waiters, op.key, op.session, now);
    } else if op.Acquire? {
      KeyedWithout(rows, op.key, op.session, now);
      AcquireRows(t, now, op);
    }
  }

  lemma {:induction false} KeyedRun(t: Tables, from: int, h: seq<Event>)
    requires Keyed(t.waiters, from) && Monotone(from, h)
    ensures Keyed(After(t, h).waiters, Clock(from, h))
  {
    if h != [] {
      MonotoneFront(from, h);
      KeyedRun(t, from, Front(h));
      KeyedStep(After(t, Front(h)), Last(h).now, Last(h).op);
    }
  }

  /** Whatever the calls and their readings, as long as the clock does not go back. */
  lemma HistoryKeyed(from: int, h: seq<Event>)
    requires Monotone(from, h)
    ensures Keyed(After(EMPTY, h).waiters, Clock(from, h))
  {
    KeyedRun(EMPTY, from, h);
  }

  // ---- exactly when a place rises ------------------------------------------------------------------

  /** The call is a first enqueue at the very reading w enqueued at, under a smaller session name. */
  predicate LosesTie(t: Tables, now: int, op: Op, key: Key, w: Session) {
    && op.Enqueue? && op.key == key && op.session != "" && !HasRow(Unexpired(t.waiters, now), key, op.session)
    && exists r :: r in t.waiters && r.key == key && r.session == w && r.enqueued == now && Less(op.session, w)
  }

  /** Where the row of a session in line stands after an enqueue. */
  lemma EnqueuePlace(t: Tables, now: int, op: Op, key: Key, r: Waiter)
    requires Keyed(t.waiters, now) && op.Enqueue? && op.session != "" && r in Live(t.waiters, key, now)
    ensures var rows, x := Unexpired(t.waiters, now), NewWaiter(op.key, op.session, now, op.ttl);
            Count(Live(Upsert(rows, x), key, now), r) ==
              Count(Live(t.waiters, key, now), r)
              + if op.key == key && !HasRow(rows, key, op.session) && Before(x, r) then 1 else 0
  {
    var rows, x := Unexpired(t.waiters, now), NewWaiter(op.key, op.session, now, op.ttl);
    LiveUnexpired(t.waiters, key, now);
    UnexpiredAlive(t.waiters, now);
    if HasRow(rows, op.key, op.session) {
      CountRefreshed(rows, x, key, now, r);
    } else {
      CountLive(rows, x, key, now, r);
    }
  }

  lemma ShrinkKeepsPlaces(t: Tables, now: int, op: Op, key: Key, r: Waiter)
    requires !op.Enqueue?
    ensures Count(Live(Exec(t, now, op).0.waiters, key, now), r) <= Count(Live(t.waiters, key, now), r)
  {
    var rows := Unexpired(t.waiters, now);
    LiveUnexpired(t.waiters, key, now);
    if op.Dequeue? {
      CountWithout(t.waiters, op.key, op.session, key, now, r);
    } else if op.Acquire? {
      CountWithout(rows, op.key, op.session, key, now, r);
      AcquireRows(t, now, op);
    }
  }

  /** The row a session has in line before a call and the row it has after it differ in their expiry only. */
  lemma SameRow(t: Tables, now: int, op: Op, key: Key, a: Waiter, b: Waiter)
    requires Keyed(t.waiters, now) && a in Live(t.waiters, key, now) && b in Live(Exec(t, now, op).0.waiters, key, now)
    requires a.session == b.session
    ensures a.enqueued == b.enqueued
  {
    var rows, u := Unexpired(t.waiters, now), Exec(t, now, op).0.waiters;
    LiveMembers(t.waiters, key, now);
    LiveMembers(u, key, now);
    UnexpiredMembers(t.waiters, now);
    if op.Enqueue? && op.session != "" {
      UpsertedFrom(rows, NewWaiter(op.key, op.session, now, op.ttl), a, b);
    } else if op.Acquire? {
      AcquireRows(t, now, op);
      WithoutMembers(rows, op.key, op.session);
    } else if op.Dequeue? {
      WithoutMembers(t.waiters, op.key, op.session);
    }
    if b in t.waiters { TwoRows(t.waiters, now, a, b); }
  }

  lemma TwoRows(rows: seq<Waiter>, clock: int, a: Waiter, b: Waiter)
    requires Keyed(rows, clock) && a in rows && b in rows && a.key == b.key && a.session == b.session
    ensures a == b
  {
    var i :| 0 <= i < |rows| && rows[i] == a;
    var j :| 0 <= j < |rows| && rows[j] == b;
  }

  /** A row of an upserted table for a session that had one is that row, or that row with a new expiry. */
  lemma UpsertedFrom(rows: seq<Waiter>, x: Waiter, a: Waiter, b: Waiter)
    requires a in rows && b in Upsert(rows, x) && a.key == b.key && a.session == b.session
    ensures b in rows || exists r :: r in rows && r.key == b.key && r.session == b.session && r.enqueued == b.enqueued
  {
    RefreshedAt(rows, x);
    var j :| 0 <= j < |Upsert(rows, x)| && Upsert(rows, x)[j] == b;
    if HasRow(rows, x.key, x.session) {
      assert rows[j] in rows;
    } else {
      var i :| 0 <= i < |rows| && rows[i] == a;
      assert b == x ==> HasRow(rows, x.key, x.session);
    }
  }

  lemma TieIsBefore(t: Tables, now: int, op: Op, key: Key, r: Waiter)
    requires Keyed(t.waiters, now) && op.Enqueue? && op.session != "" && r in t.waiters && r.key == key
    ensures LosesTie(t, now, op, key, r.session) <==>
              op.key == key && !HasRow(Unexpired(t.waiters, now), key, op.session)
              && Before(NewWaiter(op.key, op.session, now, op.ttl), r)
  {
    var i :| 0 <= i < |t.waiters| && t.waiters[i] == r;
    forall x | x in t.waiters && x.key == key && x.session == r.session ensures x == r {
      TwoRows(t.waiters, now, x, r);
    }
  }

  /** Before and after a call the place of a waiter that stays in line is the number of live rows before its row. */
  lemma PlacesAreCounts(t: Tables, now: int, op: Op, key: Key, a: Waiter)
    requires Keyed(t.waiters, now) && a in Live(t.waiters, key, now)
    requires a.session in Line(Exec(t, now, op).0.waiters, key, now)
    ensures Ahead(Line(t.waiters, key, now), a.session) == Count(Live(t.waiters, key, now), a)
    ensures var rows := Exec(t, now, op).0.waiters;
            Ahead(Line(rows, key, now), a.session) == Count(Live(rows, key, now), a)
  {
    var u := Exec(t, now, op).0;
    var b := RowInLine(u.waiters, key, now, a.session);
    SameRow(t, now, op, key, a, b);
    KeyedStep(t, now, op);
    PlaceOf(t.waiters, key, now, now, a);
    PlaceOf(u.waiters, key, now, now, b);
    CountSame(Live(u.waiters, key, now), a, b);
  }

  /** A lost tie puts one more row before the waiter's; any other call puts none there. */
  lemma CountMoves(t: Tables, now: int, op: Op, key: Key, a: Waiter)
    requires Keyed(t.waiters, now) && a in Live(t.waiters, key, now)
    ensures var rows := Exec(t, now, op).0.waiters;
            var before, after := Count(Live(t.waiters, key, now), a), Count(Live(rows, key, now), a);
            if LosesTie(t, now, op, key, a.session) then after == before + 1 else after <= before
  {
    LiveMembers(t.waiters, key, now);
    if op.Enqueue? && op.session != "" {
      EnqueuePlace(t, now, op, key, a);
      TieIsBefore(t, now, op, key, a);
    } else if !op.Enqueue? {
      ShrinkKeepsPlaces(t, now, op, key, a);
    }
  }

  /**
   Exactly when a call moves a waiter back, for every call on every keyed table, settled ties or not:
   it is a first enqueue of the key at the very reading the waiter enqueued at, and its session
   sorts first. Every other call the waiter stays in line through leaves its place or lowers it.
   */
  lemma PlaceRisesIff(t: Tables, now: int, op: Op, key: Key, w: Session)
    requires Keyed(t.waiters, now)
    requires w in Line(t.waiters, key, now) && w in Line(Exec(t, now, op).0.waiters, key, now)
    ensures Ahead(Line(Exec(t, now, op).0.waiters, key, now), w) > Ahead(Line(t.waiters, key, now), w)
            <==> LosesTie(t, now, op, key, w)
  {
    var a := RowInLine(t.waiters, key, now, w);
    PlacesAreCounts(t, now, op, key, a);
    CountMoves(t, now, op, key, a);
  }

  // ---- a first-come order that is not kept ---------------------------------------------------------

  /** The rows after two first enqueues of a key at one reading. */
  lemma TwoEnqueues(key: Key, now: int, ttl: int)
    ensures var b, a := NewWaiter(key, "b", now, ttl), NewWaiter(key, "a", now, ttl);
            var t := Exec(EMPTY, now, Enqueue(key, "b", ttl)).0;
            t.waiters == [b] && Exec(t, now, Enqueue(key, "a", ttl)).0.waiters == [b, a]
  {
    var b, a := NewWaiter(key, "b", now, ttl), NewWaiter(key, "a", now, ttl);
    var t := Exec(EMPTY, now, Enqueue(key, "b", ttl)).0;
    assert Unexpired([], now) == [] && !HasRow([], key, "b");
    assert t.waiters == [] + [b] == [b];
    assert Front([b]) == [] && Unexpired([b], now) == [b];
    assert !HasRow([b], key, "a");
  }

  lemma LiveAppend(rows: seq<Waiter>, w: Waiter, now: int)
    requires w.expires > now
    ensures Live(rows + [w], w.key, now) == Live(rows, w.key, now) + [w]
  {
    assert Front(rows + [w]) == rows;
  }

  lemma AloneIsFirst(b: Waiter, now: int)
    requires b.expires > now
    ensures Ahead(Line([b], b.key, now), b.session) == 0
  {
    assert [] + [b] == [b];
    LiveAppend([], b, now);
    PlaceIsCount([b], b);
    LessIrreflexive(b.session);
    CountAppend([], b, b);
  }

  lemma BehindTheOther(b: Waiter, a: Waiter, now: int)
    requires a.key == b.key && a.session != b.session && a.expires > now && b.expires > now && Before(a, b)
    ensures Ahead(Line([b, a], b.key, now), b.session) == 1
  {
    assert [] + [b] == [b] && [b] + [a] == [b, a];
    LiveAppend([], b, now);
    LiveAppend([b], a, now);
    assert [b, a][0] == b && [b, a][1] == a;
    assert Distinct(Sessions([b, a]));
    PlaceIsCount([b, a], b);
    LessIrreflexive(b.session);
    CountAppend([], b, b);
    CountAppend([b], a, b);
  }

  /** From an empty ledger: "b" waits first, "a" enqueues at the same reading and goes ahead of it. */
  lemma LaterGoesFirst(key: Key, now: int, ttl: int)
    ensures var t := Exec(EMPTY, now, Enqueue(key, "b", ttl)).0;
            var u := Exec(t, now, Enqueue(key, "a", ttl)).0;
            Ahead(Line(t.waiters, key, now), "b") == 0 && Ahead(Line(u.waiters, key, now), "b") == 1
  {
    TwoEnqueues(key, now, ttl);
    assert Less("a", "b");
    AloneIsFirst(NewWaiter(key, "b", now, ttl), now);
    BehindTheOther(NewWaiter(key, "b", now, ttl), NewWaiter(key, "a", now, ttl), now);
  }

  // ---- how long an intent lives ------------------------------------------------------------------------

  lemma UpsertedExpiry(rows: seq<Waiter>, x: Waiter, b: Waiter)
    requires b in Upsert(rows, x) && b.key == x.key && b.session == x.session
    ensures b.expires == x.expires
  {
    RefreshedAt(rows, x);
    var j :| 0 <= j < |Upsert(rows, x)| && Upsert(rows, x)[j] == b;
  }

  lemma UpsertHas(rows: seq<Waiter>, x: Waiter) returns (b: Waiter)
    ensures b in Upsert(rows, x) && b.key == x.key && b.session == x.session && b.expires == x.expires
  {
    RefreshedAt(rows, x);
    if HasRow(rows, x.key, x.session) {
      var i :| 0 <= i < |rows| && rows[i].key == x.key && rows[i].session == x.session;
      b := Refreshed(rows, x)[i];
      assert b in Refreshed(rows, x);
    } else {
      b := x;
    }
  }

  /**
   An enqueue, first or repeated, keeps the session in line for the time it asked for, or for ninety seconds
   if it asked for none: up to that reading, and not at it.
   */
  lemma IntentLives(t: Tables, now: int, key: Key, session: Session, ttl: int, later: int)
    requires session != ""
    ensures session in Line(Exec(t, now, Enqueue(key, session, ttl)).0.waiters, key, later)
            <==> later < now + if ttl > 0 then ttl else 90_000_000_000
  {
    var u := Exec(t, now, Enqueue(key, session, ttl)).0.waiters;
    var rows, x := Unexpired(t.waiters, now), NewWaiter(key, session, now, ttl);
    assert u == Upsert(rows, x) && x.expires == now + if ttl > 0 then ttl else 90_000_000_000;
    LiveMembers(u, key, later);
    if session in Line(u, key, later) {
      var w := RowInLine(u, key, later, session);
      UpsertedExpiry(rows, x, w);
    }
    if later < x.expires {
      var b := UpsertHas(rows, x);
      InLine(u, key, later, b);
    }
  }

  // ---- bounded overtaking ------------------------------------------------------------------------------

  predicate GrantToOther(t: Tables, e: Event, key: Key, w: Session) {
    e.op.Acquire? && e.op.key == key && e.op.session != w && Exec(t, e.now, e.op).1.Granted?
  }

  /** How many grants of the key went to others. */
  function Overtakes(t: Tables, h: seq<Event>, key: Key, w: Session): nat {
    if h == [] then 0
    else Overtakes(t, Front(h), key, w) + if GrantToOther(After(t, Front(h)), Last(h), key, w) then 1 else 0
  }

  /** How many newcomers went ahead of the waiter on a tie. */
  function LostTies(t: Tables, h: seq<Event>, key: Key, w: Session): nat {
    if h == [] then 0
    else
      LostTies(t, Front(h), key, w)
      + if LosesTie(After(t, Front(h)), Last(h).now, Last(h).op, key, w) then 1 else 0
  }

  /** The waiter is live before and after the call: it neither lapses nor leaves nor is served. */
  predicate StaysInLine(t: Tables, e: Event, key: Key, w: Session) {
    w in Line(t.waiters, key, e.now) && w in Line(Exec(t, e.now, e.op).0.waiters, key, e.now)
  }

  predicate KeptAlive(t: Tables, h: seq<Event>, key: Key, w: Session) {
    h != [] ==> KeptAlive(t, Front(h), key, w) && StaysInLine(After(t, Front(h)), Last(h), key, w)
  }

  lemma {:induction false} CountLater(rows: seq<Waiter>, key: Key, now: int, later: int, w: Waiter)
    requires now <= later
    ensures Count(Live(rows, key, later), w) <= Count(Live(rows, key, now), w)
  {
    if rows != [] {
      CountLater(Front(rows), key, now, later, w);
      assert Front(rows) + [Last(rows)] == rows;
      CountLive(Front(rows), Last(rows), key, now, w);
      CountLive(Front(rows), Last(rows), key, later, w);
    }
  }

  lemma InLine(rows: seq<Waiter>, key: Key, now: int, w: Waiter)
    requires w in Live(rows, key, now)
    ensures w.session in Line(rows, key, now)
  {
    var r := Sorted(Live(rows, key, now));
    SortedHas(Live(rows, key, now), w);
    var i :| 0 <= i < |r| && r[i] == w;
    assert Sessions(r)[i] == w.session;
  }

  /** While the clock runs, expiry ahead of a waiter can only shorten the way. */
  lemma PlaceLater(rows: seq<Waiter>, key: Key, now: int, later: int, w: Session)
    requires Keyed(rows, now) && now <= later && w in Line(rows, key, later)
    ensures w in Line(rows, key, now) && Ahead(Line(rows, key, later), w) <= Ahead(Line(rows, key, now), w)
  {
    var r := RowInLine(rows, key, later, w);
    LiveMembers(rows, key, now);
    InLine(rows, key, now, r);
    PlaceOf(rows, key, now, now, r);
    PlaceOf(rows, key, later, now, r);
    CountLater(rows, key, now, later, r);
  }

  /** Deleting a live row that comes before another brings that one forward. */
  lemma {:induction false} CountServed(rows: seq<Waiter>, x: Waiter, now: int, w: Waiter)
    requires x in rows && x.expires > now && Before(x, w)
    ensures Count(Live(Without(rows, x.key, x.session), x.key, now), w) < Count(Live(rows, x.key, now), w)
  {
    var l, rest := Last(rows), Without(Front(rows), x.key, x.session);
    assert Front(rows) + [l] == rows;
    CountLive(Front(rows), l, x.key, now, w);
    if l == x {
      CountWithout(Front(rows), x.key, x.session, x.key, now, w);
    } else {
      CountServed(Front(rows), x, now, w);
      if !(l.key == x.key && l.session == x.session) { CountLive(rest, l, x.key, now, w); }
    }
  }

  /** The head of a line comes before everybody else in it. */
  lemma HeadIsBefore(rows: seq<Waiter>, key: Key, now: int, clock: int, w: Waiter) returns (x: Waiter)
    requires Keyed(rows, clock) && w in Live(rows, key, now)
    ensures Line(rows, key, now) != [] && x in Live(rows, key, now) && x.session == Line(rows, key, now)[0]
    ensures x != w ==> Before(x, w)
  {
    var l := Live(rows, key, now);
    var r := Sorted(l);
    LiveDistinct(rows, key, now, clock);
    SortedInOrder(l);
    SortedHas(l, w);
    var n :| 0 <= n < |r| && r[n] == w;
    x := r[0];
    SortedHas(l, x);
  }

  /** A grant to somebody else serves the head and brings the waiter forward. */
  lemma GrantLowersPlace(t: Tables, e: Event, key: Key, r: Waiter)
    requires Keyed(t.waiters, e.now) && r in Live(t.waiters, key, e.now) && GrantToOther(t, e, key, r.session)
    ensures Count(Live(Exec(t, e.now, e.op).0.waiters, key, e.now), r) < Count(Live(t.waiters, key, e.now), r)
  {
    var rows := Unexpired(t.waiters, e.now);
    LiveUnexpired(t.waiters, key, e.now);
    var x := HeadIsBefore(t.waiters, key, e.now, e.now, r);
    assert e.op.session == x.session;
    LiveMembers(rows, key, e.now);
    CountServed(rows, x, e.now, r);
  }

  /** One call: a grant to another brings the waiter one place forward; only a lost tie moves it back, by one. */
  lemma StepOvertakes(t: Tables, e: Event, key: Key, w: Session)
    requires Keyed(t.waiters, e.now) && StaysInLine(t, e, key, w)
    ensures Ahead(Line(Exec(t, e.now, e.op).0.waiters, key, e.now), w) + (if GrantToOther(t, e, key, w) then 1 else 0)
            <= Ahead(Line(t.waiters, key, e.now), w) + (if LosesTie(t, e.now, e.op, key, w) then 1 else 0)
  {
    var a := RowInLine(t.waiters, key, e.now, w);
    PlacesAreCounts(t, e.now, e.op, key, a);
    if GrantToOther(t, e, key, w) {
      GrantLowersPlace(t, e, key, a);
    } else {
      CountMoves(t, e.now, e.op, key, a);
    }
  }

  /**
   Bounded overtaking, on every history with a clock that does not go back: a waiter that stays in
   line sees at most as many grants of the key to others as there were waiters ahead of it and
   newcomers that went ahead of it on a tie; what is left of that bound is its place.
   */
  lemma {:induction false} BoundedOvertaking(t: Tables, from: int, h: seq<Event>, key: Key, w: Session)
    requires Keyed(t.waiters, from) && Monotone(from, h) && KeptAlive(t, h, key, w)
    requires w in Line(t.waiters, key, from)
    ensures w in Line(After(t, h).waiters, key, Clock(from, h))
    ensures Overtakes(t, h, key, w) + Ahead(Line(After(t, h).waiters, key, Clock(from, h)), w)
            <= Ahead(Line(t.waiters, key, from), w) + LostTies(t, h, key, w)
  {
    if h != [] {
      var f, e := Front(h), Last(h);
      MonotoneFront(from, h);
      BoundedOvertaking(t, from, f, key, w);
      KeyedRun(t, from, f);
      PlaceLater(After(t, f).waiters, key, Clock(from, f), e.now, w);
      StepOvertakes(After(t, f), e, key, w);
    }
  }

  lemma SettledKeepsPlace(t: Tables, e: Event, key: Key, w: Session)
    requires Keyed(t.waiters, e.now) && Settled(t, e) && w in Line(t.waiters, key, e.now)
    ensures !LosesTie(t, e.now, e.op, key, w)
  {
    if LosesTie(t, e.now, e.op, key, w) {
      var r :| r in t.waiters && r.key == key && r.session == w && r.enqueued == e.now && Less(e.op.session, w);
      var a := RowInLine(t.waiters, key, e.now, w);
      TwoRows(t.waiters, e.now, r, a);
      UnexpiredMembers(t.waiters, e.now);
      var rows := Unexpired(t.waiters, e.now);
      var i :| 0 <= i < |rows| && rows[i] == r;
      LessTransitive(e.op.session, w, e.op.session);
      LessIrreflexive(e.op.session);
    }
  }

  lemma {:induction false} NoTieLost(t: Tables, from: int, h: seq<Event>, key: Key, w: Session)
    requires Keyed(t.waiters, from) && Monotone(from, h) && AllSettled(t, h) && KeptAlive(t, h, key, w)
    ensures LostTies(t, h, key, w) == 0
  {
    if h != [] {
      MonotoneFront(from, h);
      SettledFront(t, h);
      NoTieLost(t, from, Front(h), key, w);
      KeyedRun(t, from, Front(h));
      SettledKeepsPlace(After(t, Front(h)), Last(h), key, w);
    }
  }

  /** With settled ties the bound is the place the waiter starts from, and its place never rises. */
  lemma SettledOvertaking(t: Tables, from: int, h: seq<Event>, key: Key, w: Session)
    requires Keyed(t.waiters, from) && Monotone(from, h) && AllSettled(t, h) && KeptAlive(t, h, key, w)
    requires w in Line(t.waiters, key, from)
    ensures w in Line(After(t, h).waiters, key, Clock(from, h))
    ensures Overtakes(t, h, key, w) + Ahead(Line(After(t, h).waiters, key, Clock(from, h)), w)
            <= Ahead(Line(t.waiters, key, from), w)
  {
    BoundedOvertaking(t, from, h, key, w);
    NoTieLost(t, from, h, key, w);
  }
}
