/**
 The lease store as tables, and each ledger call as a function of the tables and the
 clock reading. Keys are opaque; times are integer readings of the injected clock.
 */
module LeaseTables {
  import opened Basics

  type Key = string
  type Session = string

  /** A row of `leases`; a free lease has the empty holder. */
  datatype Lease = Lease(holder: Session, acquired: int, expires: int, fence: nat)

  /** A row of `lease_waiters`, whose primary key is (key, session). */
  datatype Waiter = Waiter(key: Key, session: Session, enqueued: int, expires: int)

  /** Waiter rows are kept in insertion order. */
  datatype Tables = Tables(leases: map<Key, Lease>, waiters: seq<Waiter>)

  const DEFAULT_WAITER_TTL := 90_000_000_000

  // ---- the queue order ----------------------------------------------------------------

  /** Byte-wise string comparison, the order of the session tiebreaker. */
  predicate Less(a: string, b: string) {
    b != [] && (a == [] || a[0] < b[0] || (a[0] == b[0] && Less(a[1..], b[1..])))
  }

  /** ORDER BY enqueued_at ASC, session ASC. */
  predicate Before(a: Waiter, b: Waiter) {
    a.enqueued < b.enqueued || (a.enqueued == b.enqueued && Less(a.session, b.session))
  }

  /** WHERE key = key AND expires_at > now. */
  function Live(rows: seq<Waiter>, key: Key, now: int): seq<Waiter> {
    if rows == [] then []
    else if Last(rows).key == key && Last(rows).expires > now then Live(Front(rows), key, now) + [Last(rows)]
    else Live(Front(rows), key, now)
  }

  /** DELETE WHERE expires_at <= now. */
  function Unexpired(rows: seq<Waiter>, now: int): seq<Waiter> {
    if rows == [] then []
    else if Last(rows).expires > now then Unexpired(Front(rows), now) + [Last(rows)]
    else Unexpired(Front(rows), now)
  }

  /** DELETE WHERE key = key AND session = session. */
  function Without(rows: seq<Waiter>, key: Key, session: Session): seq<Waiter> {
    if rows == [] then []
    else if Last(rows).key == key && Last(rows).session == session then Without(Front(rows), key, session)
    else Without(Front(rows), key, session) + [Last(rows)]
  }

  predicate HasRow(rows: seq<Waiter>, key: Key, session: Session) {
    exists i | 0 <= i < |rows| :: rows[i].key == key && rows[i].session == session
  }

  /** UPDATE SET expires_at = w.expires WHERE key = w.key AND session = w.session. */
  function Refreshed(rows: seq<Waiter>, w: Waiter): seq<Waiter> {
    if rows == [] then []
    else
      var l := Last(rows);
      Refreshed(Front(rows), w) + [if l.key == w.key && l.session == w.session then l.(expires := w.expires) else l]
  }

  /** INSERT ... ON CONFLICT(key, session) DO UPDATE SET expires_at: the place in the queue is kept. */
  function Upsert(rows: seq<Waiter>, w: Waiter): seq<Waiter> {
    if HasRow(rows, w.key, w.session) then Refreshed(rows, w) else rows + [w]
  }

  function InsertSorted(s: seq<Waiter>, w: Waiter): seq<Waiter> {
    if s == [] || Before(Last(s), w) then s + [w] else InsertSorted(Front(s), w) + [Last(s)]
  }

  /** The rows in queue order. */
  function Sorted(s: seq<Waiter>): seq<Waiter> {
    if s == [] then [] else InsertSorted(Sorted(Front(s)), Last(s))
  }

  /** What is left of a row when its place in the line is known. */
  datatype Entry = Entry(session: Session, expires: int)

  function Entries(s: seq<Waiter>): (r: seq<Entry>)
    ensures |r| == |s| && forall i | 0 <= i < |s| :: r[i] == Entry(s[i].session, s[i].expires)
  {
    seq(|s|, i requires 0 <= i < |s| => Entry(s[i].session, s[i].expires))
  }

  function Names(q: seq<Entry>): (r: seq<Session>)
    ensures |r| == |q| && forall i | 0 <= i < |q| :: r[i] == q[i].session
  {
    seq(|q|, i requires 0 <= i < |q| => q[i].session)
  }

  function Sessions(s: seq<Waiter>): (r: seq<Session>)
    ensures |r| == |s| && forall i | 0 <= i < |s| :: r[i] == s[i].session
  {
    Names(Entries(s))
  }

  /** The live waiters of a key in queue order: what liveWaiters returns. */
  function Line(rows: seq<Waiter>, key: Key, now: int): seq<Session> {
    Sessions(Sorted(Live(rows, key, now)))
  }

  /** How many in the line are ahead of a session: its index, or everyone if it is not queued. */
  function Ahead(line: seq<Session>, session: Session): (n: nat)
    ensures n <= |line|
    ensures session in line <==> n < |line|
    ensures n < |line| ==> line[n] == session
    ensures session !in line[..n]
  {
    if line == [] then 0 else if line[0] == session then 0 else 1 + Ahead(line[1..], session)
  }

  /** A position with the session there, or past the end, and nowhere before it, is Ahead. */
  lemma {:induction false} AheadIsFirst(line: seq<Session>, session: Session, n: nat)
    requires n <= |line| && session !in line[..n] && (n < |line| ==> line[n] == session)
    ensures Ahead(line, session) == n
  {
    if n > 0 {
      assert line[..n][0] == line[0];
      assert forall x | x in line[1..][..n - 1] :: x in line[..n];
      AheadIsFirst(line[1..], session, n - 1);
    }
  }

  // ---- members of the row lists ---------------------------------------------------------

  lemma {:induction false} LiveMembers(rows: seq<Waiter>, key: Key, now: int)
    ensures forall w :: w in Live(rows, key, now) <==> w in rows && w.key == key && w.expires > now
  {
    if rows != [] {
      LiveMembers(Front(rows), key, now);
      assert rows == Front(rows) + [Last(rows)];
    }
  }

  lemma {:induction false} UnexpiredMembers(rows: seq<Waiter>, now: int)
    ensures forall w :: w in Unexpired(rows, now) <==> w in rows && w.expires > now
  {
    if rows != [] {
      UnexpiredMembers(Front(rows), now);
      assert rows == Front(rows) + [Last(rows)];
    }
  }

  lemma {:induction false} WithoutMembers(rows: seq<Waiter>, key: Key, session: Session)
    ensures forall w :: w in Without(rows, key, session) <==> w in rows && !(w.key == key && w.session == session)
  {
    if rows != [] {
      WithoutMembers(Front(rows), key, session);
      assert rows == Front(rows) + [Last(rows)];
    }
  }

  lemma {:induction false} RefreshedAt(rows: seq<Waiter>, w: Waiter)
    ensures |Refreshed(rows, w)| == |rows|
    ensures forall i | 0 <= i < |rows| :: Refreshed(rows, w)[i] ==
              if rows[i].key == w.key && rows[i].session == w.session then rows[i].(expires := w.expires) else rows[i]
  {
    if rows != [] { RefreshedAt(Front(rows), w); }
  }

  lemma {:induction false} InsertPermutes(s: seq<Waiter>, w: Waiter)
    ensures multiset(InsertSorted(s, w)) == multiset(s) + multiset{w}
  {
    if s != [] {
      assert s == Front(s) + [Last(s)];
      InsertPermutes(Front(s), w);
    }
  }

  lemma {:induction false} SortedPermutes(s: seq<Waiter>)
    ensures multiset(Sorted(s)) == multiset(s)
  {
    if s != [] {
      assert s == Front(s) + [Last(s)];
      SortedPermutes(Front(s));
      InsertPermutes(Sorted(Front(s)), Last(s));
    }
  }

  // ---- the calls -------------------------------------------------------------------------

  datatype Op =
    | Acquire(key: Key, session: Session, ttl: int)
    | Renew(key: Key, session: Session, ttl: int)
    | Release(key: Key, session: Session)
    | Reclaim(key: Key)
    | Enqueue(key: Key, session: Session, ttl: int)
    | Dequeue(key: Key, session: Session)
    | Queue(key: Key)

  datatype Reply =
    | Rejected                                              // empty session
    | Granted(fence: nat, expires: int)
    | Refused(holder: Session, until: int, fenceNow: nat, head: Session, ahead: nat)
    | Renewed(ok: bool, expires: int)
    | Released(ok: bool)
    | Reclaimed(ok: bool, prior: Session)
    | Position(position: nat)
    | Dequeued(ok: bool)
    | Snapshot(held: bool, holder: Session, line: seq<Session>)

  /** The lease row of a key; an absent row reads as a free lease with fence 0. */
  function Row(leases: map<Key, Lease>, key: Key): Lease {
    if key in leases then leases[key] else Lease("", 0, 0, 0)
  }

  /** The lock predicate of the acquire upsert. */
  predicate Free(leases: map<Key, Lease>, key: Key, now: int) {
    key !in leases || leases[key].holder == "" || leases[key].expires <= now
  }

  predicate Held(leases: map<Key, Lease>, key: Key, now: int) {
    key in leases && leases[key].holder != "" && leases[key].expires > now
  }

  /** The session holds a live lease of the key. */
  predicate HeldBy(leases: map<Key, Lease>, key: Key, session: Session, now: int) {
    Held(leases, key, now) && leases[key].holder == session
  }

  function AfterGrant(leases: map<Key, Lease>, key: Key, session: Session, now: int, ttl: int): map<Key, Lease> {
    leases[key := Lease(session, now, now + ttl, Row(leases, key).fence + 1)]
  }

  function AcquireStep(t: Tables, now: int, key: Key, session: Session, ttl: int): (Tables, Reply) {
    if session == "" then (t, Rejected)
    else
      var rows := Unexpired(t.waiters, now);
      var line := Line(rows, key, now);
      var head, ahead := if line == [] then "" else line[0], Ahead(line, session);
      var lease := Row(t.leases, key);
      if (line != [] && session != head) || !Free(t.leases, key, now) then
        (Tables(t.leases, rows), Refused(lease.holder, lease.expires, lease.fence, head, ahead))
      else
        (Tables(AfterGrant(t.leases, key, session, now, ttl), if line == [] then rows else Without(rows, key, session)),
         Granted(lease.fence + 1, now + ttl))
  }

  function RenewStep(t: Tables, now: int, key: Key, session: Session, ttl: int): (Tables, Reply) {
    if Held(t.leases, key, now) && t.leases[key].holder == session then
      (t.(leases := t.leases[key := t.leases[key].(expires := now + ttl)]), Renewed(true, now + ttl))
    else (t, Renewed(false, 0))
  }

  function ReleaseStep(t: Tables, key: Key, session: Session): (Tables, Reply) {
    if session != "" && key in t.leases && t.leases[key].holder == session then
      (t.(leases := t.leases[key := t.leases[key].(holder := "", expires := 0)]), Released(true))
    else (t, Released(false))
  }

  function ReclaimStep(t: Tables, now: int, key: Key): (Tables, Reply) {
    if key in t.leases && t.leases[key].holder != "" && t.leases[key].expires <= now then
      var l := t.leases[key];
      (t.(leases := t.leases[key := l.(holder := "", expires := 0, fence := l.fence + 1)]), Reclaimed(true, l.holder))
    else (t, Reclaimed(false, ""))
  }

  function WaiterTtl(ttl: int): int {
    if ttl <= 0 then DEFAULT_WAITER_TTL else ttl
  }

  function NewWaiter(key: Key, session: Session, now: int, ttl: int): Waiter {
    Waiter(key, session, now, now + WaiterTtl(ttl))
  }

  function EnqueueStep(t: Tables, now: int, key: Key, session: Session, ttl: int): (Tables, Reply) {
    if session == "" then (t, Rejected)
    else
      var rows := Upsert(Unexpired(t.waiters, now), NewWaiter(key, session, now, ttl));
      (t.(waiters := rows), Position(Ahead(Line(rows, key, now), session)))
  }

  function DequeueStep(t: Tables, key: Key, session: Session): (Tables, Reply) {
    if session == "" then (t, Dequeued(false))
    else (t.(waiters := Without(t.waiters, key, session)), Dequeued(HasRow(t.waiters, key, session)))
  }

  function QueueStep(t: Tables, now: int, key: Key): (Tables, Reply) {
    var rows := Unexpired(t.waiters, now);
    var held := Held(t.leases, key, now);
    (t.(waiters := rows), Snapshot(held, if held then t.leases[key].holder else "", Line(rows, key, now)))
  }

  function Exec(t: Tables, now: int, op: Op): (Tables, Reply) {
    match op
    case Acquire(key, session, ttl) => AcquireStep(t, now, key, session, ttl)
    case Renew(key, session, ttl) => RenewStep(t, now, key, session, ttl)
    case Release(key, session) => ReleaseStep(t, key, session)
    case Reclaim(key) => ReclaimStep(t, now, key)
    case Enqueue(key, session, ttl) => EnqueueStep(t, now, key, session, ttl)
    case Dequeue(key, session) => DequeueStep(t, key, session)
    case Queue(key) => QueueStep(t, now, key)
  }

  // ---- histories ---------------------------------------------------------------------------

  /** A call and the clock reading it makes. */
  datatype Event = At(now: int, op: Op)

  const EMPTY := Tables(map[], [])

  function After(t: Tables, h: seq<Event>): Tables {
    if h == [] then t else Exec(After(t, Front(h)), Last(h).now, Last(h).op).0
  }

  /** The reply to the k-th call. */
  function ReplyTo(t: Tables, h: seq<Event>, k: nat): Reply
    requires k < |h|
  {
    Exec(After(t, h[..k]), h[k].now, h[k].op).1
  }

  /** The clock never goes back, and starts no earlier than from. */
  predicate Monotone(from: int, h: seq<Event>) {
    && (forall i | 0 <= i < |h| :: from <= h[i].now)
    && (forall i, j | 0 <= i <= j < |h| :: h[i].now <= h[j].now)
  }

  function Clock(from: int, h: seq<Event>): int {
    if h == [] then from else Last(h).now
  }

  lemma MonotoneFront(from: int, h: seq<Event>)
    requires Monotone(from, h) && h != []
    ensures Monotone(from, Front(h)) && from <= Clock(from, Front(h)) <= Last(h).now
  {
  }
}
