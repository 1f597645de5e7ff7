/**
 Mutual exclusion over whole histories: the windows in which two grants of a key are live
 never overlap, fences only grow, and a session that lost a lease cannot renew it.
 */
module LeaseFencing {
  import opened Basics
  import opened LeaseTables

  /** One grant of a key and the window [start, until) in which it is live; renewals move until, giving up cuts it. */
  datatype Grant = Grant(holder: Session, fence: nat, start: int, until: int)

  function SetUntil(log: seq<Grant>, until: int): seq<Grant>
    requires log != []
  {
    Front(log) + [Last(log).(until := until)]
  }

  function EndBy(log: seq<Grant>, now: int): seq<Grant>
    requires log != []
  {
    if Last(log).until <= now then log else SetUntil(log, now)
  }

  predicate Concerns(op: Op, key: Key) {
    (op.Acquire? || op.Renew? || op.Release? || op.Reclaim?) && op.key == key
  }

  /** What a call on the key and its reply do to the key's grant log. */
  function Track(log: seq<Grant>, e: Event, r: Reply): seq<Grant> {
    match e.op
    case Acquire(_, session, _) => if r.Granted? then log + [Grant(session, r.fence, e.now, r.expires)] else log
    case Renew(_, _, _) => if r.Renewed? && r.ok && log != [] then SetUntil(log, r.expires) else log
    case Release(_, _) => if r.Released? && r.ok && log != [] then EndBy(log, e.now) else log
    case Reclaim(_) => if r.Reclaimed? && r.ok && log != [] then EndBy(log, e.now) else log
    case _ => log
  }

  /** The grants of a key in a history that starts on an empty ledger. */
  function Grants(h: seq<Event>, key: Key): seq<Grant> {
    if h == [] then []
    else
      var log, e := Grants(Front(h), key), Last(h);
      if Concerns(e.op, key) then Track(log, e, Exec(After(EMPTY, Front(h)), e.now, e.op).1) else log
  }

  predicate Exclusive(log: seq<Grant>) {
    forall i, j | 0 <= i < j < |log| :: log[i].until <= log[j].start && log[i].fence < log[j].fence
  }

  /** The lease row of the key agrees with its grant log at clock reading now. */
  predicate Tracks(log: seq<Grant>, leases: map<Key, Lease>, key: Key, now: int) {
    && Exclusive(log)
    && (forall i | 0 <= i < |log| :: log[i].start <= now)
    && (log != [] ==> key in leases && Last(log).fence <= leases[key].fence)
    && (key in leases ==>
          var row := leases[key];
          if row.holder == "" then log != [] ==> Last(log).until <= now
          else
            && log != [] && Last(log).holder == row.holder && Last(log).fence == row.fence
            && Last(log).until == row.expires)
  }

  lemma TracksLater(log: seq<Grant>, leases: map<Key, Lease>, key: Key, now: int, later: int)
    requires Tracks(log, leases, key, now) && now <= later
    ensures Tracks(log, leases, key, later)
  {
  }

  lemma GrantTracked(log: seq<Grant>, leases: map<Key, Lease>, now: int, key: Key, session: Session, ttl: int)
    requires Tracks(log, leases, key, now) && Free(leases, key, now) && session != ""
    ensures var g := Grant(session, Row(leases, key).fence + 1, now, now + ttl);
            Tracks(log + [g], AfterGrant(leases, key, session, now, ttl), key, now)
  {
    var g := Grant(session, Row(leases, key).fence + 1, now, now + ttl);
    forall i | 0 <= i < |log| ensures log[i].until <= now && log[i].fence < g.fence {
      if i < |log| - 1 {
        assert log[i].until <= Last(log).start;
      }
    }
  }

  /** Rewriting the end of the latest window, and the lease row with it. */
  lemma EndTracked(log: seq<Grant>, leases: map<Key, Lease>, now: int, key: Key, until: int, lease: Lease)
    requires Tracks(log, leases, key, now) && key in leases && log != [] && lease.fence >= leases[key].fence
    requires if lease.holder == "" then until <= now
             else lease.holder == leases[key].holder && lease.fence == leases[key].fence && lease.expires == until
    ensures Tracks(SetUntil(log, until), leases[key := lease], key, now)
  {
    var log' := SetUntil(log, until);
    forall i, j | 0 <= i < j < |log'| ensures log'[i].until <= log'[j].start && log'[i].fence < log'[j].fence {
      assert log'[i] == log[i];
    }
  }

  /** Giving up the lease, at or before its expiry, ends the window now at the latest. */
  lemma GiveUpTracked(log: seq<Grant>, leases: map<Key, Lease>, now: int, key: Key, fence: nat)
    requires Tracks(log, leases, key, now) && key in leases && leases[key].holder != "" && fence >= leases[key].fence
    ensures Tracks(EndBy(log, now), leases[key := leases[key].(holder := "", expires := 0, fence := fence)], key, now)
  {
    var until := if Last(log).until <= now then Last(log).until else now;
    EndTracked(log, leases, now, key, until, leases[key].(holder := "", expires := 0, fence := fence));
    assert EndBy(log, now) == SetUntil(log, until);
  }

  lemma StepTracked(log: seq<Grant>, t: Tables, e: Event, key: Key)
    requires Tracks(log, t.leases, key, e.now) && Concerns(e.op, key)
    ensures var (t', r) := Exec(t, e.now, e.op); Tracks(Track(log, e, r), t'.leases, key, e.now)
  {
    if e.op.Acquire? {
      AcquireTracked(log, t, e, key);
    } else if e.op.Renew? {
      RenewTracked(log, t, e, key);
    } else {
      if key in t.leases && t.leases[key].holder != "" {
        GiveUpTracked(log, t.leases, e.now, key, t.leases[key].fence);
        GiveUpTracked(log, t.leases, e.now, key, t.leases[key].fence + 1);
      }
    }
  }

  /** An acquire either leaves the lease rows alone or grants a free key. */
  lemma AcquireCases(t: Tables, now: int, key: Key, session: Session, ttl: int)
    ensures var (t', r) := AcquireStep(t, now, key, session, ttl);
            if r.Granted? then
              && session != "" && Free(t.leases, key, now) && r == Granted(Row(t.leases, key).fence + 1, now + ttl)
              && t'.leases == AfterGrant(t.leases, key, session, now, ttl)
            else t'.leases == t.leases
  {
  }

  /** Whatever an acquire did to the lease row, the grant log follows. */
  lemma GrantOrNot(log: seq<Grant>, leases: map<Key, Lease>, e: Event, key: Key, leases': map<Key, Lease>, r: Reply)
    requires Tracks(log, leases, key, e.now) && e.op.Acquire? && e.op.key == key
    requires if r.Granted? then
               && e.op.session != "" && Free(leases, key, e.now)
               && r == Granted(Row(leases, key).fence + 1, e.now + e.op.ttl)
               && leases' == AfterGrant(leases, key, e.op.session, e.now, e.op.ttl)
             else leases' == leases
    ensures Tracks(Track(log, e, r), leases', key, e.now)
  {
    if r.Granted? { GrantTracked(log, leases, e.now, key, e.op.session, e.op.ttl); }
  }

  lemma AcquireTracked(log: seq<Grant>, t: Tables, e: Event, key: Key)
    requires Tracks(log, t.leases, key, e.now) && e.op.Acquire? && e.op.key == key
    ensures var (t', r) := Exec(t, e.now, e.op); Tracks(Track(log, e, r), t'.leases, key, e.now)
  {
    AcquireCases(t, e.now, key, e.op.session, e.op.ttl);
    var (t', r) := AcquireStep(t, e.now, key, e.op.session, e.op.ttl);
    GrantOrNot(log, t.leases, e, key, t'.leases, r);
  }

  lemma RenewTracked(log: seq<Grant>, t: Tables, e: Event, key: Key)
    requires Tracks(log, t.leases, key, e.now) && e.op.Renew? && e.op.key == key
    ensures var (t', r) := Exec(t, e.now, e.op); Tracks(Track(log, e, r), t'.leases, key, e.now)
  {
    if HeldBy(t.leases, key, e.op.session, e.now) {
      var until := e.now + e.op.ttl;
      EndTracked(log, t.leases, e.now, key, until, t.leases[key].(expires := until));
    }
  }

  /** Calls on other keys and queue calls leave the row of the key alone. */
  lemma OtherCalls(t: Tables, e: Event, key: Key)
    requires !Concerns(e.op, key)
    ensures var t' := Exec(t, e.now, e.op).0;
            (key in t'.leases <==> key in t.leases) && (key in t.leases ==> t'.leases[key] == t.leases[key])
  {
  }

  lemma {:induction false} HistoryTracked(from: int, h: seq<Event>, key: Key)
    requires Monotone(from, h)
    ensures Tracks(Grants(h, key), After(EMPTY, h).leases, key, Clock(from, h))
  {
    if h != [] {
      MonotoneFront(from, h);
      HistoryTracked(from, Front(h), key);
      TracksLater(Grants(Front(h), key), After(EMPTY, Front(h)).leases, key, Clock(from, Front(h)), Last(h).now);
      if Concerns(Last(h).op, key) {
        StepTracked(Grants(Front(h), key), After(EMPTY, Front(h)), Last(h), key);
      } else {
        OtherCalls(After(EMPTY, Front(h)), Last(h), key);
      }
    }
  }

  /** In every history with a nondecreasing clock: live windows of a key never overlap and fences strictly grow. */
  lemma WindowsNeverOverlap(from: int, h: seq<Event>, key: Key, i: nat, j: nat)
    requires Monotone(from, h) && i < j < |Grants(h, key)|
    ensures Grants(h, key)[i].until <= Grants(h, key)[j].start
    ensures Grants(h, key)[i].fence < Grants(h, key)[j].fence
  {
    HistoryTracked(from, h, key);
  }

  /** now lies in the window of a grant to the session. */
  predicate InWindow(log: seq<Grant>, session: Session, now: int) {
    exists i | 0 <= i < |log| :: log[i].holder == session && log[i].start <= now < log[i].until
  }

  lemma OnlyLatestIsLive(log: seq<Grant>, leases: map<Key, Lease>, key: Key, session: Session, now: int)
    requires Tracks(log, leases, key, now) && session != ""
    ensures HeldBy(leases, key, session, now) <==> InWindow(log, session, now)
  {
    if InWindow(log, session, now) {
      var i :| 0 <= i < |log| && log[i].holder == session && log[i].start <= now < log[i].until;
      assert i == |log| - 1;
    } else if log != [] {
      assert !(log[|log| - 1].holder == session && log[|log| - 1].start <= now < log[|log| - 1].until);
    }
  }

  /** The windows are the leases: a session holds a key now exactly when now lies in the window of a grant of its. */
  lemma HeldInItsWindow(from: int, h: seq<Event>, key: Key, session: Session, now: int)
    requires Monotone(from, h) && Clock(from, h) <= now && session != ""
    ensures HeldBy(After(EMPTY, h).leases, key, session, now) <==> InWindow(Grants(h, key), session, now)
  {
    HistoryTracked(from, h, key);
    TracksLater(Grants(h, key), After(EMPTY, h).leases, key, Clock(from, h), now);
    OnlyLatestIsLive(Grants(h, key), After(EMPTY, h).leases, key, session, now);
  }

  /** now lies in the window of some grant. */
  predicate InSomeWindow(log: seq<Grant>, now: int) {
    exists i | 0 <= i < |log| :: log[i].start <= now < log[i].until
  }

  lemma LiveIsLatest(log: seq<Grant>, leases: map<Key, Lease>, key: Key, now: int)
    requires Tracks(log, leases, key, now)
    ensures InSomeWindow(log, now) <==> key in leases && leases[key].holder != "" && now < leases[key].expires
  {
    if InSomeWindow(log, now) {
      var i :| 0 <= i < |log| && log[i].start <= now < log[i].until;
      assert i == |log| - 1;
    } else if log != [] {
      assert !(log[|log| - 1].start <= now < log[|log| - 1].until);
    }
  }

  /**
   When an acquire succeeds, over histories: no window of the key contains the reading, however it ended,
   and the caller leads the line of live waiters or there is none. So a crashed holder blocks nobody for long.
   */
  lemma GrantedOutsideWindows(from: int, h: seq<Event>, now: int, op: Op)
    requires Monotone(from, h) && Clock(from, h) <= now && op.Acquire?
    ensures var t := After(EMPTY, h);
            var line := Line(Unexpired(t.waiters, now), op.key, now);
            Exec(t, now, op).1.Granted? <==>
            op.session != "" && !InSomeWindow(Grants(h, op.key), now) && (line == [] || line[0] == op.session)
  {
    HistoryTracked(from, h, op.key);
    TracksLater(Grants(h, op.key), After(EMPTY, h).leases, op.key, Clock(from, h), now);
    LiveIsLatest(Grants(h, op.key), After(EMPTY, h).leases, op.key, now);
    assert Exec(After(EMPTY, h), now, op) == AcquireStep(After(EMPTY, h), now, op.key, op.session, op.ttl);
  }

  // ---- losing a lease ------------------------------------------------------------------------

  /** The history grants the key to the session at no point. */
  predicate NeverGranted(t: Tables, h: seq<Event>, key: Key, session: Session) {
    forall k | 0 <= k < |h| ::
      !(h[k].op.Acquire? && h[k].op.key == key && h[k].op.session == session && ReplyTo(t, h, k).Granted?)
  }

  lemma NotHeldStep(t: Tables, e: Event, key: Key, session: Session)
    requires !HeldBy(t.leases, key, session, e.now)
    requires !(e.op.Acquire? && e.op.key == key && e.op.session == session && Exec(t, e.now, e.op).1.Granted?)
    ensures !HeldBy(Exec(t, e.now, e.op).0.leases, key, session, e.now)
    ensures e.op.Renew? && e.op.key == key && e.op.session == session ==> Exec(t, e.now, e.op).1 == Renewed(false, 0)
  {
  }

  /**
   A session that does not hold a key, because its grant lapsed, was released or was reclaimed,
   is refused every renewal until it is granted the key again.
   */
  lemma {:induction false} NoRenewalAfterLoss(t: Tables, from: int, h: seq<Event>, key: Key, session: Session)
    requires Monotone(from, h) && !HeldBy(t.leases, key, session, from) && NeverGranted(t, h, key, session)
    ensures !HeldBy(After(t, h).leases, key, session, Clock(from, h))
    ensures forall k | 0 <= k < |h| && h[k].op.Renew? && h[k].op.key == key && h[k].op.session == session ::
              ReplyTo(t, h, k) == Renewed(false, 0)
  {
    if h != [] {
      var f := Front(h);
      MonotoneFront(from, h);
      assert forall k | 0 <= k < |f| :: f[..k] == h[..k];
      assert h[..|h| - 1] == f;
      assert NeverGranted(t, f, key, session) by {
        forall k | 0 <= k < |f| ensures ReplyTo(t, f, k) == ReplyTo(t, h, k) {}
      }
      NoRenewalAfterLoss(t, from, f, key, session);
      assert ReplyTo(t, h, |h| - 1) == Exec(After(t, f), Last(h).now, Last(h).op).1;
      NotHeldStep(After(t, f), Last(h), key, session);
      forall k | 0 <= k < |h| && h[k].op.Renew? && h[k].op.key == key && h[k].op.session == session
        ensures ReplyTo(t, h, k) == Renewed(false, 0)
      {
        if k < |f| { assert ReplyTo(t, f, k) == ReplyTo(t, h, k); }
      }
    }
  }
}
