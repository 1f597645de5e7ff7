/** The lease ledger: one object over the two tables, every call proved against its table function. */
module Ledger {
  import opened Basics
  import opened LeaseTables

  class Ledger {
    var leases: map<Key, Lease>
    var waiters: seq<Waiter>

    function Tab(): Tables
      reads this
    {
      Tables(leases, waiters)
    }

    constructor ()
      ensures Tab() == EMPTY
    {
      leases, waiters := map[], [];
    }

    /** DELETE FROM lease_waiters WHERE expires_at <= now. */
    method PruneWaiters(now: int)
      modifies this`waiters
      ensures waiters == Unexpired(old(waiters), now)
    {
      var kept := [];
      var i := 0;
      while i < |waiters|
        invariant i <= |waiters| && waiters == old(waiters)
        invariant kept == Unexpired(waiters[..i], now)
      {
        assert Front(waiters[..i + 1]) == waiters[..i];
        if waiters[i].expires > now {
          kept := kept + [waiters[i]];
        }
        i := i + 1;
      }
      assert waiters[..i] == waiters;
      waiters := kept;
    }

    /** Scan the ordered result rows into a list of sessions. */
    method LiveWaiters(key: Key, now: int) returns (line: seq<Session>)
      ensures line == Line(waiters, key, now)
    {
      var rows := Sorted(Live(waiters, key, now));
      line := [];
      for i := 0 to |rows|
        invariant line == Sessions(rows[..i])
      {
        line := line + [rows[i].session];
      }
      assert rows[..|rows|] == rows;
    }

    /** The head of the line, how many are ahead of the session, and whether there is a line at all. */
    method HeadWaiter(key: Key, session: Session, now: int) returns (head: Session, ahead: nat, hasQueue: bool)
      ensures var line := Line(waiters, key, now);
              && hasQueue == (line != [])
              && head == (if line == [] then "" else line[0])
              && ahead == Ahead(line, session)
    {
      var line := LiveWaiters(key, now);
      if |line| == 0 {
        return "", 0, false;
      }
      ahead := |line|;
      for i := 0 to |line|
        invariant session !in line[..i] && ahead == |line|
      {
        if line[i] == session {
          ahead := i;
          break;
        }
      }
      AheadIsFirst(line, session, ahead);
      return line[0], ahead, true;
    }

    /** The upsert of the lease row, and the head leaving the queue. */
    method Grant(now: int, key: Key, session: Session, ttl: int, dequeue: bool)
      modifies this
      ensures leases == AfterGrant(old(leases), key, session, now, ttl)
      ensures waiters == if dequeue then Without(old(waiters), key, session) else old(waiters)
    {
      leases := leases[key := Lease(session, now, now + ttl, Row(leases, key).fence + 1)];
      if dequeue {
        waiters := Without(waiters, key, session);
      }
    }

    method Acquire(now: int, key: Key, session: Session, ttl: int) returns (r: Reply)
      modifies this
      ensures var line := Line(Unexpired(old(waiters), now), key, now);
              var live := key in old(leases) && old(leases)[key].holder != "" && now < old(leases)[key].expires;
              r.Granted? <==> session != "" && !live && (line == [] || line[0] == session)
      ensures r.Granted? ==> forall later :: HeldBy(leases, key, session, later) <==> later < now + ttl
      ensures (Tab(), r) == AcquireStep(old(Tab()), now, key, session, ttl)
    {
      if session == "" {
        return Rejected;
      }
      PruneWaiters(now);
      var head, ahead, hasQueue := HeadWaiter(key, session, now);
      var lease := Row(leases, key);
      if hasQueue && session != head {
        return Refused(lease.holder, lease.expires, lease.fence, head, ahead);
      }
      if key !in leases || leases[key].holder == "" || leases[key].expires <= now {
        Grant(now, key, session, ttl, hasQueue);
        return Granted(lease.fence + 1, now + ttl);
      }
      return Refused(lease.holder, lease.expires, lease.fence, head, ahead);
    }

    /** The live holder lives on, with the same fence; nobody else gains or loses anything. */
    method Renew(now: int, key: Key, session: Session, ttl: int) returns (r: Reply)
      modifies this`leases
      ensures r.Renewed? && (r.ok <==> HeldBy(old(leases), key, session, now))
      ensures r.ok ==> r.expires == now + ttl
      ensures forall later :: r.ok ==> (HeldBy(leases, key, session, later) <==> later < r.expires)
      ensures !r.ok ==> leases == old(leases)
      ensures leases - {key} == old(leases) - {key} && Row(leases, key).fence == Row(old(leases), key).fence
      ensures (Tab(), r) == RenewStep(old(Tab()), now, key, session, ttl)
    {
      if key in leases && leases[key].holder == session && leases[key].holder != "" && leases[key].expires > now {
        leases := leases[key := leases[key].(expires := now + ttl)];
        return Renewed(true, now + ttl);
      }
      return Renewed(false, 0);
    }

    /** The holder, live or lapsed, gives the key up: it is free for anybody, and a second release fails. */
    method Release(key: Key, session: Session) returns (r: Reply)
      modifies this`leases
      ensures r.Released? && (r.ok <==> session != "" && Row(old(leases), key).holder == session)
      ensures forall now :: r.ok ==> Free(leases, key, now)
      ensures Row(leases, key).holder == session ==> session == ""
      ensures !r.ok ==> leases == old(leases)
      ensures leases - {key} == old(leases) - {key} && Row(leases, key).fence == Row(old(leases), key).fence
      ensures (Tab(), r) == ReleaseStep(old(Tab()), key, session)
    {
      if session == "" {
        return Released(false);
      }
      if key in leases && leases[key].holder == session {
        leases := leases[key := leases[key].(holder := "", expires := 0)];
        return Released(true);
      }
      return Released(false);
    }

    /** A lapsed lease is freed, once, and its fence raised; a live one is never touched. */
    method ReclaimIfExpired(now: int, key: Key) returns (r: Reply)
      modifies this`leases
      ensures r.Reclaimed? && (r.ok <==> Row(old(leases), key).holder != "" && !Held(old(leases), key, now))
      ensures r.ok ==> r.prior == Row(old(leases), key).holder
      ensures r.ok ==> Row(leases, key).fence == Row(old(leases), key).fence + 1
      ensures r.ok ==> Row(leases, key).holder == ""
      ensures forall s :: HeldBy(leases, key, s, now) <==> HeldBy(old(leases), key, s, now)
      ensures !r.ok ==> leases == old(leases)
      ensures leases - {key} == old(leases) - {key}
      ensures (Tab(), r) == ReclaimStep(old(Tab()), now, key)
    {
      if key !in leases {
        return Reclaimed(false, "");
      }
      var prior := leases[key].holder;
      if prior != "" && leases[key].expires <= now {
        leases := leases[key := leases[key].(holder := "", expires := 0, fence := leases[key].fence + 1)];
        return Reclaimed(true, prior);
      }
      return Reclaimed(false, "");
    }

    /** Prune, then insert the intent or refresh its expiry in place. */
    method UpsertWaiter(w: Waiter, now: int)
      modifies this`waiters
      ensures waiters == Upsert(Unexpired(old(waiters), now), w)
    {
      PruneWaiters(now);
      waiters := Upsert(waiters, w);
    }

    method Enqueue(now: int, key: Key, session: Session, ttl: int) returns (r: Reply)
      modifies this`waiters
      ensures (Tab(), r) == EnqueueStep(old(Tab()), now, key, session, ttl)
    {
      if session == "" {
        return Rejected;
      }
      var life := if ttl <= 0 then DEFAULT_WAITER_TTL else ttl;
      var w := Waiter(key, session, now, now + life);
      assert w == NewWaiter(key, session, now, ttl);
      UpsertWaiter(w, now);
      var _, ahead, _ := HeadWaiter(key, session, now);
      r := Position(ahead);
    }

    /** The intent is gone at every later reading, and no other intent is. */
    method Dequeue(key: Key, session: Session) returns (r: Reply)
      modifies this`waiters
      ensures r.Dequeued? && (r.ok <==> session != "" && HasRow(old(waiters), key, session))
      ensures session != "" ==> !HasRow(waiters, key, session)
      ensures forall w :: w in waiters <==>
                w in old(waiters) && !(session != "" && w.key == key && w.session == session)
      ensures (Tab(), r) == DequeueStep(old(Tab()), key, session)
    {
      if session == "" {
        return Dequeued(false);
      }
      var had := HasRow(waiters, key, session);
      WithoutMembers(waiters, key, session);
      waiters := Without(waiters, key, session);
      assert forall i | 0 <= i < |waiters| :: waiters[i] in waiters;
      return Dequeued(had);
    }

    method Queue(now: int, key: Key) returns (r: Reply)
      modifies this`waiters
      ensures (Tab(), r) == QueueStep(old(Tab()), now, key)
    {
      PruneWaiters(now);
      var held := key in leases && leases[key].holder != "" && leases[key].expires > now;
      var holder := if held then leases[key].holder else "";
      var line := LiveWaiters(key, now);
      return Snapshot(held, holder, line);
    }
  }
}
