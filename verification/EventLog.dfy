/**
 The event log and its cursors over whole histories: no event reaches a consumer twice, and
 a consumer with a steady view receives an initial segment of its log.
 */
module EventLog {
  import opened Basics
  import opened ReviewTables

  // ---- the log ------------------------------------------------------------------------------

  predicate Ascending(es: seq<Event>) {
    forall i, j | 0 <= i < j < |es| :: es[i].id < es[j].id
  }

  predicate LogInv(p: Plane) {
    && p.nextId >= 1 && Ascending(p.events)
    && (forall e | e in p.events :: 1 <= e.id < p.nextId)
    && (forall c | c in p.cursors :: p.cursors[c] < p.nextId)
  }

  lemma AppendKeeps(p: Plane, audience: string, kind: string, branch: Branch, now: int)
    requires LogInv(p)
    ensures LogInv(Append(p, audience, kind, branch, now))
  {
    var es := Append(p, audience, kind, branch, now).events;
    forall i, j | 0 <= i < j < |es| ensures es[i].id < es[j].id {
      if j == |p.events| { assert p.events[i] in p.events; }
    }
  }

  lemma {:induction false} RequeuedKeeps(p: Plane, branches: seq<Branch>, now: int)
    requires LogInv(p)
    ensures var q := AppendRequeued(p, branches, now);
            LogInv(q) && p.events <= q.events && p.nextId <= q.nextId && q.cursors == p.cursors
              && q.requests == p.requests
  {
    if branches != [] {
      RequeuedKeeps(p, Front(branches), now);
      AppendKeeps(AppendRequeued(p, Front(branches), now), INTEGRATOR, "integration.requeued", Last(branches), now);
    }
  }

  lemma {:induction false} RecentKeeps(events: seq<Event>, cutoff: int)
    requires Ascending(events)
    ensures var r := Recent(events, cutoff); Ascending(r) && forall e | e in r :: e in events && e.created >= cutoff
  {
    if events != [] {
      RecentKeeps(Front(events), cutoff);
    }
  }

  lemma {:induction false} VisibleFacts(events: seq<Event>, requests: map<Branch, Record>, session: Session,
                                        filter: Branch, after: nat)
    requires Ascending(events)
    ensures var v := Visible(events, requests, session, filter, after);
            Ascending(v) && forall e | e in v :: e in events && after < e.id && Shown(requests, session, filter, e)
  {
    if events != [] {
      VisibleFacts(Front(events), requests, session, filter, after);
    }
  }

  /** A poll hands over authorized events beyond the cursor, oldest first, at most as many as asked for. */
  lemma PolledFacts(p: Plane, session: Session, filter: Branch, max: int)
    requires LogInv(p)
    ensures var out := Polled(p, session, filter, max);
            && Ascending(out) && |out| <= NormalMax(max)
            && (forall e | e in out :: e in p.events && e.id > Cursor(p, session)
                 && Shown(p.requests, session, filter, e))
            && (out != [] ==> forall e | e in out :: e.id <= Last(out).id)
  {
    var v := Visible(p.events, p.requests, session, filter, Cursor(p, session));
    VisibleFacts(p.events, p.requests, session, filter, Cursor(p, session));
    TakeFacts(v, NormalMax(max));
  }

  lemma TakeFacts(v: seq<Event>, n: nat)
    requires Ascending(v)
    ensures var out := Take(v, n);
            && Ascending(out) && |out| <= n && (forall e | e in out :: e in v)
            && (out != [] ==> forall e | e in out :: e.id <= Last(out).id)
  {
    var out := Take(v, n);
    forall e | out != [] && e in out ensures e.id <= Last(out).id {
      var i :| 0 <= i < |out| && out[i] == e;
    }
  }

  lemma ExecKeeps(p: Plane, now: int, op: Op)
    requires LogInv(p)
    ensures LogInv(Exec(p, now, op).0) && p.nextId <= Exec(p, now, op).0.nextId
    ensures !op.Collect? ==> p.events <= Exec(p, now, op).0.events
    ensures op.Poll? || Exec(p, now, op).0.cursors == p.cursors
  {
    match op
    case Request(session, branch, _) => AppendKeeps(p, INTEGRATOR, "integration.requested", branch, now);
    case Claim(_, branch) => AppendKeeps(p, BRANCH_PREFIX + branch, "integration.claimed", branch, now);
    case Verdict(_, branch, _, _, _) => AppendKeeps(p, BRANCH_PREFIX + branch, "integration.verdict", branch, now);
    case Cancel(_, _) =>
    case Reclaim(dead, order) =>
      RequeuedKeeps(p.(requests := RequeueStale(p.requests, dead, now)), order, now);
    case Collect => RecentKeeps(p.events, now - EVENT_RETENTION);
    case Poll(session, filter, max) => PolledFacts(p, session, filter, max);
  }

  lemma {:induction false} AfterInv(h: seq<Call>)
    ensures LogInv(After(h))
  {
    if h != [] {
      AfterInv(Front(h));
      ExecKeeps(After(Front(h)), Last(h).now, Last(h).op);
    }
  }

  // ---- no event twice --------------------------------------------------------------------------

  predicate PollsAs(c: Call, consumer: Session) {
    c.op.Poll? && c.op.session == consumer
  }

  /** Everything the consumer's polls have returned, joined. */
  function DeliveredTo(h: seq<Call>, consumer: Session): seq<Event> {
    if h == [] then []
    else
      DeliveredTo(Front(h), consumer) +
      if PollsAs(Last(h), consumer) then Polled(After(Front(h)), consumer, Last(h).op.filter, Last(h).op.max) else []
  }

  lemma CursorMoves(p: Plane, c: Call, consumer: Session)
    ensures var q := Exec(p, c.now, c.op).0;
            Cursor(q, consumer) ==
              if PollsAs(c, consumer) && Polled(p, consumer, c.op.filter, c.op.max) != []
              then Last(Polled(p, consumer, c.op.filter, c.op.max)).id else Cursor(p, consumer)
  {
    if c.op.Reclaim? {
      RequeuedCursors(p.(requests := RequeueStale(p.requests, c.op.dead, c.now)), c.op.order, c.now);
    }
  }

  lemma {:induction false} RequeuedCursors(p: Plane, branches: seq<Branch>, now: int)
    ensures AppendRequeued(p, branches, now).cursors == p.cursors
  {
    if branches != [] { RequeuedCursors(p, Front(branches), now); }
  }

  /**
   No consumer is ever handed the same event id twice: its deliveries, joined, have strictly
   ascending ids, whatever the filters, limits, authorization changes and collections.
   */
  lemma {:induction false} NeverTwice(h: seq<Call>, consumer: Session)
    ensures var d := DeliveredTo(h, consumer);
            Ascending(d) && forall e | e in d :: e.id <= Cursor(After(h), consumer)
  {
    if h != [] {
      NeverTwice(Front(h), consumer);
      var p, c := After(Front(h)), Last(h);
      AfterInv(Front(h));
      CursorMoves(p, c, consumer);
      if PollsAs(c, consumer) {
        PolledFacts(p, consumer, c.op.filter, c.op.max);
        JoinAscending(DeliveredTo(Front(h), consumer), Polled(p, consumer, c.op.filter, c.op.max), Cursor(p, consumer));
      }
    }
  }

  lemma JoinAscending(a: seq<Event>, b: seq<Event>, x: nat)
    requires Ascending(a) && Ascending(b)
    requires (forall e | e in a :: e.id <= x) && (forall e | e in b :: e.id > x)
    ensures Ascending(a + b)
  {
    var s := a + b;
    forall i, j | 0 <= i < j < |s| ensures s[i].id < s[j].id {
      if i < |a| <= j { assert s[i] in a && s[j] in b; }
    }
  }

  // ---- a steady view -----------------------------------------------------------------------------

  /** The events of a log whose ids are in a fixed set, among ids in (after, upTo]. */
  ghost function Chosen(events: seq<Event>, allowed: iset<nat>, after: nat, upTo: nat): seq<Event> {
    if events == [] then []
    else
      var rest := Chosen(Front(events), allowed, after, upTo);
      if after < Last(events).id <= upTo && Last(events).id in allowed then rest + [Last(events)] else rest
  }

  lemma {:induction false} VisibleIsChosen(events: seq<Event>, requests: map<Branch, Record>, session: Session,
                                           filter: Branch, allowed: iset<nat>, after: nat, upTo: nat)
    requires forall e | e in events :: (Shown(requests, session, filter, e) <==> e.id in allowed) && e.id <= upTo
    ensures Visible(events, requests, session, filter, after) == Chosen(events, allowed, after, upTo)
  {
    if events != [] {
      VisibleIsChosen(Front(events), requests, session, filter, allowed, after, upTo);
    }
  }

  lemma {:induction false} ChosenSplit(events: seq<Event>, allowed: iset<nat>, a: nat, b: nat, c: nat)
    requires Ascending(events) && a <= b <= c
    ensures Chosen(events, allowed, a, c) == Chosen(events, allowed, a, b) + Chosen(events, allowed, b, c)
  {
    if events != [] {
      ChosenSplit(Front(events), allowed, a, b, c);
      if Last(events).id <= b { ChosenNone(Front(events), allowed, b, c); }
    }
  }

  lemma {:induction false} ChosenNone(events: seq<Event>, allowed: iset<nat>, after: nat, upTo: nat)
    requires forall e | e in events :: e.id <= after
    ensures Chosen(events, allowed, after, upTo) == []
  {
    if events != [] { ChosenNone(Front(events), allowed, after, upTo); }
  }

  /** Beyond the last id the upper bound does not matter. */
  lemma {:induction false} ChosenAll(events: seq<Event>, allowed: iset<nat>, after: nat, x: nat, y: nat)
    requires forall e | e in events :: e.id <= x && e.id <= y
    ensures Chosen(events, allowed, after, x) == Chosen(events, allowed, after, y)
  {
    if events != [] { ChosenAll(Front(events), allowed, after, x, y); }
  }

  /** Cutting the log at the id of the m-th chosen event leaves exactly the first m. */
  lemma {:induction false} CutAt(events: seq<Event>, allowed: iset<nat>, after: nat, top: nat, m: nat)
    requires Ascending(events) && 0 < m <= |Chosen(events, allowed, after, top)|
    ensures var v := Chosen(events, allowed, after, top);
            v[m - 1].id <= top && v[m - 1] in events && Chosen(events, allowed, after, v[m - 1].id) == v[..m]
  {
    var v, front := Chosen(events, allowed, after, top), Front(events);
    var w := Chosen(front, allowed, after, top);
    if m <= |w| {
      CutAt(front, allowed, after, top, m);
      assert v[m - 1] == w[m - 1] && v[..m] == w[..m];
      var i :| 0 <= i < |front| && front[i] == v[m - 1];
      assert events[i] == v[m - 1];
    } else {
      assert v == w + [Last(events)] && v[m - 1] == Last(events) && v[..m] == v;
      forall e | e in front ensures e.id < Last(events).id {
        var i :| 0 <= i < |front| && front[i] == e;
      }
      ChosenAll(events, allowed, after, Last(events).id, top);
    }
  }

  /**
   The consumer polls with one filter, nothing is collected, and what it may see of the
   events in the log never changes.
   */
  ghost predicate Steady(h: seq<Call>, consumer: Session, filter: Branch, allowed: iset<nat>) {
    && (forall c | c in h :: !c.op.Collect? && (PollsAs(c, consumer) ==> c.op.filter == filter))
    && (forall k | 0 <= k <= |h| :: SteadyAt(After(h[..k]), consumer, filter, allowed))
  }

  ghost predicate SteadyAt(p: Plane, consumer: Session, filter: Branch, allowed: iset<nat>) {
    forall e | e in p.events :: Shown(p.requests, consumer, filter, e) <==> e.id in allowed
  }

  lemma SteadyFront(h: seq<Call>, consumer: Session, filter: Branch, allowed: iset<nat>)
    requires h != [] && Steady(h, consumer, filter, allowed)
    ensures Steady(Front(h), consumer, filter, allowed)
  {
    forall k | 0 <= k <= |Front(h)| ensures SteadyAt(After(Front(h)[..k]), consumer, filter, allowed) {
      assert Front(h)[..k] == h[..k];
    }
  }

  lemma {:induction false} ChosenGrows(early: seq<Event>, new_: seq<Event>, allowed: iset<nat>, after: nat, upTo: nat)
    requires early <= new_ && forall i | |early| <= i < |new_| :: new_[i].id > upTo
    ensures Chosen(new_, allowed, after, upTo) == Chosen(early, allowed, after, upTo)
    decreases |new_|
  {
    if early != new_ {
      ChosenGrows(early, Front(new_), allowed, after, upTo);
    }
  }

  /** One poll extends what was delivered to exactly the events up to the new cursor. */
  lemma PollExtends(p: Plane, consumer: Session, filter: Branch, max: int, allowed: iset<nat>)
    requires LogInv(p) && SteadyAt(p, consumer, filter, allowed)
    ensures var out := Polled(p, consumer, filter, max);
            var cursor := if out == [] then Cursor(p, consumer) else Last(out).id;
            && Chosen(p.events, allowed, 0, Cursor(p, consumer)) + out == Chosen(p.events, allowed, 0, cursor)
            && (|out| < NormalMax(max) ==>
                 Chosen(p.events, allowed, 0, cursor) == Chosen(p.events, allowed, 0, p.nextId))
  {
    var from := Cursor(p, consumer);
    var v := Chosen(p.events, allowed, from, p.nextId);
    VisibleIsChosen(p.events, p.requests, consumer, filter, allowed, from, p.nextId);
    var out := Polled(p, consumer, filter, max);
    ChosenSplit(p.events, allowed, 0, from, p.nextId);
    if out != [] {
      CutAt(p.events, allowed, from, p.nextId, |out|);
      assert out == v[..|out|] && Last(out) == v[|out| - 1];
      PolledFacts(p, consumer, filter, max);
      ChosenSplit(p.events, allowed, 0, from, Last(out).id);
    }
  }

  /** The last call is a poll of the consumer that returned fewer events than it asked for. */
  predicate EndsWithShortPoll(h: seq<Call>, consumer: Session) {
    h != [] && PollsAs(Last(h), consumer) &&
    |Polled(After(Front(h)), consumer, Last(h).op.filter, Last(h).op.max)| < NormalMax(Last(h).op.max)
  }

  /** One call extends what was delivered to the events up to the new cursor. */
  lemma DeliveredStep(p: Plane, c: Call, consumer: Session, filter: Branch, allowed: iset<nat>)
    requires LogInv(p) && SteadyAt(p, consumer, filter, allowed) && !c.op.Collect?
    requires PollsAs(c, consumer) ==> c.op.filter == filter
    ensures var q := Exec(p, c.now, c.op).0;
            Chosen(p.events, allowed, 0, Cursor(p, consumer))
            + (if PollsAs(c, consumer) then Polled(p, consumer, filter, c.op.max) else [])
            == Chosen(q.events, allowed, 0, Cursor(q, consumer))
  {
    CursorMoves(p, c, consumer);
    LogGrows(p, c, consumer, allowed);
    if PollsAs(c, consumer) { PollExtends(p, consumer, filter, c.op.max, allowed); }
  }

  lemma SteadyLast(h: seq<Call>, consumer: Session, filter: Branch, allowed: iset<nat>)
    requires h != [] && Steady(h, consumer, filter, allowed)
    ensures SteadyAt(After(Front(h)), consumer, filter, allowed) && !Last(h).op.Collect?
    ensures PollsAs(Last(h), consumer) ==> Last(h).op.filter == filter
  {
    assert h[..|h| - 1] == Front(h);
    assert Last(h) in h;
  }

  lemma {:induction false} DeliveredIsChosen(h: seq<Call>, consumer: Session, filter: Branch, allowed: iset<nat>)
    requires Steady(h, consumer, filter, allowed)
    ensures DeliveredTo(h, consumer) == Chosen(After(h).events, allowed, 0, Cursor(After(h), consumer))
  {
    if h != [] {
      SteadyFront(h, consumer, filter, allowed);
      DeliveredIsChosen(Front(h), consumer, filter, allowed);
      AfterInv(Front(h));
      SteadyLast(h, consumer, filter, allowed);
      DeliveredStep(After(Front(h)), Last(h), consumer, filter, allowed);
    }
  }

  /** A poll that was not full has caught up. */
  lemma ShortPollCatchesUp(h: seq<Call>, consumer: Session, filter: Branch, allowed: iset<nat>)
    requires Steady(h, consumer, filter, allowed) && EndsWithShortPoll(h, consumer)
    ensures var p := After(h);
            Chosen(p.events, allowed, 0, Cursor(p, consumer)) == Chosen(p.events, allowed, 0, p.nextId)
  {
    var p, c := After(Front(h)), Last(h);
    AfterInv(Front(h));
    SteadyLast(h, consumer, filter, allowed);
    CursorMoves(p, c, consumer);
    PollExtends(p, consumer, filter, c.op.max, allowed);
  }

  /**
   With a steady view the consumer's polls, joined, are exactly the events it may see up to
   its cursor: an initial segment of its log, in id order, with nothing left out. After a poll
   that was not full they are the whole of it.
   */
  lemma SteadyLogIsInitialSegment(h: seq<Call>, consumer: Session, filter: Branch, allowed: iset<nat>)
    requires Steady(h, consumer, filter, allowed)
    ensures var p := After(h);
            && DeliveredTo(h, consumer) == Chosen(p.events, allowed, 0, Cursor(p, consumer))
            && DeliveredTo(h, consumer) <= Chosen(p.events, allowed, 0, p.nextId)
            && (EndsWithShortPoll(h, consumer) ==> DeliveredTo(h, consumer) == Chosen(p.events, allowed, 0, p.nextId))
  {
    DeliveredIsChosen(h, consumer, filter, allowed);
    AfterInv(h);
    ChosenSplit(After(h).events, allowed, 0, Cursor(After(h), consumer), After(h).nextId);
    if EndsWithShortPoll(h, consumer) { ShortPollCatchesUp(h, consumer, filter, allowed); }
  }

  /** A call other than a collection leaves the log up to the new cursor as it was. */
  lemma LogGrows(p: Plane, c: Call, consumer: Session, allowed: iset<nat>)
    requires LogInv(p) && !c.op.Collect?
    ensures var q := Exec(p, c.now, c.op).0;
            Chosen(q.events, allowed, 0, Cursor(q, consumer)) == Chosen(p.events, allowed, 0, Cursor(q, consumer))
  {
    var q := Exec(p, c.now, c.op).0;
    ExecKeeps(p, c.now, c.op);
    CursorMoves(p, c, consumer);
    if c.op.Poll? {
      assert q.events == p.events;
    } else {
      NewIdsAreNew(p, c);
      ChosenGrows(p.events, q.events, allowed, 0, Cursor(q, consumer));
    }
  }

  lemma NewIdsAreNew(p: Plane, c: Call)
    requires LogInv(p) && !c.op.Collect? && !c.op.Poll?
    ensures var q := Exec(p, c.now, c.op).0;
            p.events <= q.events && forall i | |p.events| <= i < |q.events| :: q.events[i].id >= p.nextId
  {
    if c.op.Reclaim? {
      RequeuedIds(p.(requests := RequeueStale(p.requests, c.op.dead, c.now)), c.op.order, c.now);
    }
  }

  lemma {:induction false} RequeuedIds(p: Plane, branches: seq<Branch>, now: int)
    ensures var q := AppendRequeued(p, branches, now);
            && p.nextId <= q.nextId && p.events <= q.events
            && forall i | |p.events| <= i < |q.events| :: q.events[i].id >= p.nextId
  {
    if branches != [] { RequeuedIds(p, Front(branches), now); }
  }

  // ---- who has a steady view ------------------------------------------------------------------------

  predicate OwnEvent(e: Event, session: Session) {
    e.branch == "nm/" + session && e.audience == BRANCH_PREFIX + "nm/" + session
  }

  /** A session watching its own branch: what it may see depends on the event alone, whatever happens to the rows. */
  lemma OwnBranchIsSteady(requests: map<Branch, Record>, session: Session, e: Event)
    ensures Shown(requests, session, "nm/" + session, e) <==> OwnEvent(e, session)
  {
    assert BRANCH_PREFIX + "nm/" + session == BRANCH_PREFIX + ("nm/" + session);
    if BRANCH_PREFIX <= e.audience {
      assert e.audience == BRANCH_PREFIX + e.audience[|BRANCH_PREFIX|..];
    }
    assert e.audience == BRANCH_PREFIX + ("nm/" + session) ==> e.audience[|BRANCH_PREFIX|..] == "nm/" + session;
    assert e.audience == BRANCH_PREFIX + ("nm/" + session) ==> e.audience[0] == 'b';
    assert e.audience == INTEGRATOR ==> e.audience[0] == 'i';
  }

  /** The log of a branch's own session: what integrators told it. */
  function OwnLog(events: seq<Event>, session: Session): seq<Event> {
    if events == [] then []
    else
      var rest := OwnLog(Front(events), session);
      if OwnEvent(Last(events), session) then rest + [Last(events)] else rest
  }

  lemma {:induction false} OwnLogIsChosen(events: seq<Event>, session: Session, allowed: iset<nat>, upTo: nat)
    requires forall e | e in events :: (OwnEvent(e, session) <==> e.id in allowed) && 1 <= e.id <= upTo
    ensures OwnLog(events, session) == Chosen(events, allowed, 0, upTo)
  {
    if events != [] { OwnLogIsChosen(Front(events), session, allowed, upTo); }
  }

  lemma {:induction false} LogOnlyGrows(h: seq<Call>, k: nat)
    requires k <= |h| && forall c | c in h :: !c.op.Collect?
    ensures After(h[..k]).events <= After(h).events
    decreases |h|
  {
    if k == |h| {
      assert h[..k] == h;
    } else {
      assert Front(h)[..k] == h[..k];
      LogOnlyGrows(Front(h), k);
      AfterInv(Front(h));
      assert Last(h) in h;
      ExecKeeps(After(Front(h)), Last(h).now, Last(h).op);
    }
  }

  /** Ids name events: a fixed set of ids describes any property of the events of a growing log. */
  lemma OwnSteady(h: seq<Call>, session: Session, allowed: iset<nat>)
    requires forall c | c in h :: !c.op.Collect? && (PollsAs(c, session) ==> c.op.filter == "nm/" + session)
    requires allowed == iset e | e in After(h).events && OwnEvent(e, session) :: e.id
    ensures Steady(h, session, "nm/" + session, allowed)
    ensures forall e | e in After(h).events :: OwnEvent(e, session) <==> e.id in allowed
  {
    AfterInv(h);
    forall e | e in After(h).events ensures OwnEvent(e, session) <==> e.id in allowed {
      if e.id in allowed {
        var x :| x in After(h).events && OwnEvent(x, session) && x.id == e.id;
        SameIdSameEvent(After(h).events, x, e);
      }
    }
    forall k | 0 <= k <= |h| ensures SteadyAt(After(h[..k]), session, "nm/" + session, allowed) {
      LogOnlyGrows(h, k);
      var p := After(h[..k]);
      forall e | e in p.events ensures Shown(p.requests, session, "nm/" + session, e) <==> e.id in allowed {
        assert e in After(h).events;
        OwnBranchIsSteady(p.requests, session, e);
      }
    }
  }

  lemma SameIdSameEvent(events: seq<Event>, x: Event, y: Event)
    requires Ascending(events) && x in events && y in events && x.id == y.id
    ensures x == y
  {
    var i :| 0 <= i < |events| && events[i] == x;
    var j :| 0 <= j < |events| && events[j] == y;
  }

  /**
   A session that watches its own branch gets an initial segment of what integrators told it,
   and all of it after a poll that was not full: no assumption on authorization is needed,
   whoever requests, claims, decides, cancels or requeues.
   */
  lemma OwnBranchIsComplete(h: seq<Call>, session: Session)
    requires forall c | c in h :: !c.op.Collect? && (PollsAs(c, session) ==> c.op.filter == "nm/" + session)
    ensures DeliveredTo(h, session) <= OwnLog(After(h).events, session)
    ensures EndsWithShortPoll(h, session) ==> DeliveredTo(h, session) == OwnLog(After(h).events, session)
  {
    var allowed := iset e | e in After(h).events && OwnEvent(e, session) :: e.id;
    OwnSteady(h, session, allowed);
    SteadyLogIsInitialSegment(h, session, "nm/" + session, allowed);
    AfterInv(h);
    OwnLogIsChosen(After(h).events, session, allowed, After(h).nextId);
  }

  // ---- who is told ----------------------------------------------------------------------------------

  lemma {:induction false} VisibleIsShown(events: seq<Event>, requests: map<Branch, Record>, session: Session,
                                          filter: Branch, after: nat, e: Event)
    requires e in Visible(events, requests, session, filter, after)
    ensures Shown(requests, session, filter, e)
  {
    if e in Visible(Front(events), requests, session, filter, after) {
      VisibleIsShown(Front(events), requests, session, filter, after, e);
    }
  }

  /** A session may be handed an event addressed to all integrators, or of its own branch or one whose row it holds. */
  predicate MayRead(requests: map<Branch, Record>, session: Session, filter: Branch, e: Event) {
    || (e.audience == "integrator" && filter == "" && !Blank(session))
    || (e.audience == "branch:" + e.branch && (filter == "" || filter == e.branch)
        && (e.branch == "nm/" + session || (e.branch in requests && requests[e.branch].holder == session)))
  }

  /** Who is told: a session is handed only what it may read. */
  lemma PolledIsAuthorized(p: Plane, session: Session, filter: Branch, max: int, e: Event)
    requires session != "" && e in Polled(p, session, filter, max)
    ensures MayRead(p.requests, session, filter, e)
  {
    VisibleIsShown(p.events, p.requests, session, filter, Cursor(p, session), e);
    if e.audience != INTEGRATOR {
      assert e.audience == BRANCH_PREFIX + e.audience[|BRANCH_PREFIX|..];
    }
  }

  /** And nobody is passed over: a poll that was not full hands over every such event beyond the cursor. */
  lemma ShortPollHasAll(p: Plane, session: Session, filter: Branch, max: int, e: Event)
    requires LogInv(p) && e in p.events && e.id > Cursor(p, session)
    requires |Polled(p, session, filter, max)| < NormalMax(max)
    requires MayRead(p.requests, session, filter, e)
    ensures e in Polled(p, session, filter, max)
  {
    BranchAudience(e);
    VisibleHas(p.events, p.requests, session, filter, Cursor(p, session), e);
  }

  lemma BranchAudience(e: Event)
    ensures e.audience == "branch:" + e.branch ==>
              && e.audience != "integrator" && "branch:" <= e.audience && e.audience[7..] == e.branch
  {
    if e.audience == "branch:" + e.branch {
      assert e.audience[0] == 'b' && "integrator"[0] == 'i';
      assert e.audience[7..] == e.branch;
    }
  }

  lemma {:induction false} NothingVisible(events: seq<Event>, requests: map<Branch, Record>, session: Session,
                                          filter: Branch, after: nat)
    requires forall e | e in events :: e.id <= after
    ensures Visible(events, requests, session, filter, after) == []
  {
    if events != [] {
      forall e | e in Front(events) ensures e in events {}
      NothingVisible(Front(events), requests, session, filter, after);
    }
  }

  /** The call leaves the rows in requests and appends one event of a kind for an audience. */
  predicate Announces(p: Plane, q: Plane, audience: string, kind: string, branch: Branch) {
    && q.cursors == p.cursors && |q.events| == |p.events| + 1 && Front(q.events) == p.events
    && var e := Last(q.events); e.id == p.nextId && e.audience == audience && e.kind == kind && e.branch == branch
  }

  /** A consumer that had caught up is handed exactly the event appended since, if it may see it. */
  lemma CaughtUpPoll(p: Plane, q: Plane, audience: string, kind: string, branch: Branch, session: Session,
                     filter: Branch, max: int)
    requires LogInv(p) && Announces(p, q, audience, kind, branch) && Cursor(p, session) == p.nextId - 1
    requires Shown(q.requests, session, filter, Last(q.events))
    ensures Polled(q, session, filter, max) == [Last(q.events)]
  {
    NothingVisible(p.events, q.requests, session, filter, p.nextId - 1);
  }

  /** A request reaches every integrator that had caught up, as the one event of its next unfiltered poll. */
  lemma RequestReachesIntegrators(p: Plane, c: Call, session: Session, max: int)
    requires LogInv(p) && c.op.Request? && Exec(p, c.now, c.op).1.Stored?
    requires Cursor(p, session) == p.nextId - 1 && !Blank(session)
    ensures var out := Polled(Exec(p, c.now, c.op).0, session, "", max);
            |out| == 1 && out[0].branch == c.op.branch && out[0].kind == "integration.requested"
  {
    CaughtUpPoll(p, Exec(p, c.now, c.op).0, "integrator", "integration.requested", c.op.branch, session, "", max);
  }

  /** A claim or a verdict reaches the holder of the branch, whether it watches everything or this branch. */
  lemma NewsReachesHolder(p: Plane, c: Call, filter: Branch, max: int)
    requires LogInv(p) && (c.op.Claim? || c.op.Verdict?)
    requires var r := Exec(p, c.now, c.op).1;
             (r.ClaimReply? || r.VerdictReply?) && r.ok && (filter == "" || filter == c.op.branch)
    requires c.op.branch in p.requests && Cursor(p, p.requests[c.op.branch].holder) == p.nextId - 1
    ensures var out := Polled(Exec(p, c.now, c.op).0, p.requests[c.op.branch].holder, filter, max);
            |out| == 1 && out[0].branch == c.op.branch
            && out[0].kind == if c.op.Claim? then "integration.claimed" else "integration.verdict"
  {
    var q := Exec(p, c.now, c.op).0;
    BranchAudience(Last(q.events));
    CaughtUpPoll(p, q, "branch:" + c.op.branch, Last(q.events).kind, c.op.branch, p.requests[c.op.branch].holder,
                 filter, max);
  }

  lemma {:induction false} RequeuedVisible(p: Plane, order: seq<Branch>, now: int, session: Session)
    requires LogInv(p) && !Blank(session)
    ensures var v := Visible(AppendRequeued(p, order, now).events, p.requests, session, "", p.nextId - 1);
            |v| == |order| && forall i | 0 <= i < |order| :: v[i].branch == order[i]
    ensures AppendRequeued(p, order, now).nextId == p.nextId + |order|
  {
    if order == [] {
      NothingVisible(p.events, p.requests, session, "", p.nextId - 1);
    } else {
      RequeuedVisible(p, Front(order), now, session);
      var q := AppendRequeued(p, Front(order), now);
      assert Front(AppendRequeued(p, order, now).events) == q.events;
    }
  }

  /** After a sweep an integrator that had caught up is handed the requeued branches in their order. */
  lemma RequeuesReachIntegrators(p: Plane, c: Call, session: Session, max: int)
    requires LogInv(p) && c.op.Reclaim? && Cursor(p, session) == p.nextId - 1 && !Blank(session)
    ensures var out := Polled(Exec(p, c.now, c.op).0, session, "", max);
            && |out| == (if |c.op.order| <= NormalMax(max) then |c.op.order| else NormalMax(max))
            && forall i | 0 <= i < |out| :: out[i].branch == c.op.order[i]
  {
    var r := p.(requests := RequeueStale(p.requests, c.op.dead, c.now));
    var q := AppendRequeued(r, c.op.order, c.now);
    assert Exec(p, c.now, c.op).0 == q;
    assert q.requests == r.requests && Cursor(q, session) == p.nextId - 1 by { RequeuedKeeps(r, c.op.order, c.now); }
    RequeuedVisible(r, c.op.order, c.now, session);
    PolledIsTake(q, session, max, Visible(q.events, q.requests, session, "", p.nextId - 1));
  }

  lemma PolledIsTake(q: Plane, session: Session, max: int, v: seq<Event>)
    requires v == Visible(q.events, q.requests, session, "", Cursor(q, session))
    ensures var out, n := Polled(q, session, "", max), NormalMax(max);
            |out| == (if |v| <= n then |v| else n) && forall i | 0 <= i < |out| :: out[i] == v[i]
  {
  }

  lemma {:induction false} RecentIff(events: seq<Event>, cutoff: int, e: Event)
    ensures e in Recent(events, cutoff) <==> e in events && e.created >= cutoff
  {
    if events != [] {
      RecentIff(Front(events), cutoff, e);
      assert events == Front(events) + [Last(events)];
    }
  }

  /** A collection keeps the events of the last day, and those alone. */
  lemma EventsForADay(p: Plane, c: Call, e: Event)
    requires c.op.Collect?
    ensures e in Exec(p, c.now, c.op).0.events <==> e in p.events && c.now - e.created <= 86_400_000_000_000
  {
    RecentIff(p.events, c.now - EVENT_RETENTION, e);
  }

  // ---- changing the filter ------------------------------------------------------------------------

  /** What a cursor has passed is never delivered afterwards. */
  lemma {:induction false} PassedForGood(h: seq<Call>, more: seq<Call>, consumer: Session)
    ensures Cursor(After(h), consumer) <= Cursor(After(h + more), consumer)
    ensures DeliveredTo(h, consumer) <= DeliveredTo(h + more, consumer)
    ensures forall i | |DeliveredTo(h, consumer)| <= i < |DeliveredTo(h + more, consumer)| ::
              DeliveredTo(h + more, consumer)[i].id > Cursor(After(h), consumer)
    decreases |more|
  {
    if more == [] {
      assert h + more == h;
    } else {
      var g := h + Front(more);
      PassedForGood(h, Front(more), consumer);
      assert Front(h + more) == g && Last(h + more) == Last(more);
      AfterInv(g);
      CursorMoves(After(g), Last(more), consumer);
      if PollsAs(Last(more), consumer) {
        var out := Polled(After(g), consumer, Last(more).op.filter, Last(more).op.max);
        PolledFacts(After(g), consumer, Last(more).op.filter, Last(more).op.max);
        assert forall i | 0 <= i < |out| :: out[i] in out;
      }
    }
  }

  lemma {:induction false} VisibleHas(events: seq<Event>, requests: map<Branch, Record>, session: Session,
                                      filter: Branch, after: nat, e: Event)
    requires e in events && e.id > after && Shown(requests, session, filter, e)
    ensures e in Visible(events, requests, session, filter, after)
  {
    if e != Last(events) {
      assert events == Front(events) + [Last(events)];
      VisibleHas(Front(events), requests, session, filter, after, e);
    }
  }

  /** A poll leaves out nothing it may show up to its last event. */
  lemma PolledHas(p: Plane, session: Session, filter: Branch, max: int, e: Event)
    requires LogInv(p) && e in p.events && e.id > Cursor(p, session) && Shown(p.requests, session, filter, e)
    requires var out := Polled(p, session, filter, max); out != [] && e.id <= Last(out).id
    ensures e in Polled(p, session, filter, max)
  {
    var v := Visible(p.events, p.requests, session, filter, Cursor(p, session));
    var out := Polled(p, session, filter, max);
    VisibleHas(p.events, p.requests, session, filter, Cursor(p, session), e);
    VisibleFacts(p.events, p.requests, session, filter, Cursor(p, session));
    var i :| 0 <= i < |v| && v[i] == e;
    assert out == v[..|out|] && v[|out| - 1] == Last(out);
    assert out[i] == e;
  }

  /**
   Exactly when a poll passes an event without delivering it: it delivers a younger one, and the event
   does not get through the filter or the authorization of this poll. By PassedForGood the event is
   then never delivered, though another filter would show it.
   */
  lemma MixedFiltersSkip(p: Plane, session: Session, filter: Branch, max: int, now: int, e: Event)
    requires LogInv(p) && e in p.events && Cursor(p, session) < e.id
    ensures var out, q := Polled(p, session, filter, max), Exec(p, now, Poll(session, filter, max)).0;
            (e !in out && e.id <= Cursor(q, session)) <==>
            (out != [] && e.id < Last(out).id && !Shown(p.requests, session, filter, e))
  {
    var out := Polled(p, session, filter, max);
    PolledFacts(p, session, filter, max);
    if out != [] && e.id <= Last(out).id {
      if Shown(p.requests, session, filter, e) { PolledHas(p, session, filter, max, e); }
      assert Last(out) in out;
      if e.id == Last(out).id { SameIdSameEvent(p.events, e, Last(out)); }
    }
  }

  /**
   An instance: two events of two branches, both addressed to the session, and a poll for the
   younger one's branch.
   */
  lemma FilterSkipsOlder(p: Plane, session: Session, e: Event, f: Event, now: int)
    requires LogInv(p) && p.events == [e, f] && Cursor(p, session) == 0 && f.branch != "" && e.branch != f.branch
    requires Shown(p.requests, session, f.branch, f) && Shown(p.requests, session, "", e)
    ensures var q := Exec(p, now, Poll(session, f.branch, 0)).0;
            e !in Polled(p, session, f.branch, 0) && e.id < Cursor(q, session) && Shown(q.requests, session, "", e)
  {
    assert Front(p.events) == [e] && Front([e]) == [] && Last(p.events) == f && Last([e]) == e;
    assert Visible([e], p.requests, session, f.branch, 0) == [];
    assert Polled(p, session, f.branch, 0) == [f];
    assert p.events[0] == e && p.events[1] == f;
    MixedFiltersSkip(p, session, f.branch, 0, now, e);
  }

  // ---- a history that leads there --------------------------------------------------------------

  lemma AfterOneMore(h: seq<Call>, c: Call)
    ensures After(h + [c]) == Exec(After(h), c.now, c.op).0
  {
    assert Front(h + [c]) == h;
  }

  /** A claimed row and its event as a session sees them. */
  function ClaimedRow(holder: Session, claimer: Session, created: int, now: int): Record {
    Record("", holder, claimer, Claimed, "", "", created, now)
  }

  function ClaimedEvent(id: nat, branch: Branch, now: int): Event {
    Event(id, BRANCH_PREFIX + branch, "integration.claimed", branch, now)
  }

  function TwoRequests(now: int, holder: Session, a: Branch, b: Branch): seq<Call> {
    [Call(now, Request(holder, a, "")), Call(now, Request(holder, b, ""))]
  }

  function TwoClaims(now: int, claimer: Session, a: Branch, b: Branch): seq<Call> {
    [Call(now, Claim(claimer, a)), Call(now, Claim(claimer, b))]
  }

  lemma AfterRequests(now: int, holder: Session, a: Branch, b: Branch)
    requires SafeRef(a) && SafeRef(b) && a != b
    ensures var p := After(TwoRequests(now, holder, a, b));
            && p.requests == map[a := Record("", holder, "", Requested, "", "", now, now),
                                 b := Record("", holder, "", Requested, "", "", now, now)]
            && p.nextId == 3 && p.cursors == map[] && |p.events| == 2
            && p.events[0].created == now && p.events[1].created == now
  {
    var x, y := Call(now, Request(holder, a, "")), Call(now, Request(holder, b, ""));
    AfterOneMore([], x);
    AfterOneMore([x], y);
    assert [] + [x] == [x] && [x] + [y] == TwoRequests(now, holder, a, b);
  }

  lemma AfterClaims(now: int, later: int, holder: Session, claimer: Session, a: Branch, b: Branch)
    requires SafeRef(a) && SafeRef(b) && a != b
    ensures var p, q := After(TwoRequests(now, holder, a, b)),
                        After(TwoRequests(now, holder, a, b) + TwoClaims(later, claimer, a, b));
            && q.requests == map[a := ClaimedRow(holder, claimer, now, later),
                                 b := ClaimedRow(holder, claimer, now, later)]
            && q.events == p.events + [ClaimedEvent(3, a, later), ClaimedEvent(4, b, later)] && q.cursors == map[]
  {
    var h, x, y := TwoRequests(now, holder, a, b), Call(later, Claim(claimer, a)), Call(later, Claim(claimer, b));
    AfterRequests(now, holder, a, b);
    AfterOneMore(h, x);
    AfterOneMore(h + [x], y);
    assert h + [x] + [y] == h + TwoClaims(later, claimer, a, b);
  }

  /** The requests are a day old when both branches are claimed: the sweep drops their events. */
  function ClaimsOnly(now: int, holder: Session, claimer: Session, a: Branch, b: Branch): seq<Call> {
    var later := now + EVENT_RETENTION + 1;
    TwoRequests(now, holder, a, b) + TwoClaims(later, claimer, a, b) + [Call(later, Collect)]
  }

  lemma RecentAppend(events: seq<Event>, e: Event, cutoff: int)
    ensures Recent(events + [e], cutoff) == Recent(events, cutoff) + if e.created < cutoff then [] else [e]
  {
    assert Front(events + [e]) == events;
  }

  lemma RecentDrops(early: seq<Event>, e: Event, f: Event, cutoff: int)
    requires |early| == 2 && early[0].created < cutoff && early[1].created < cutoff
    requires e.created >= cutoff && f.created >= cutoff
    ensures Recent(early + [e, f], cutoff) == [e, f]
  {
    assert early + [e, f] == [] + [early[0]] + [early[1]] + [e] + [f];
    RecentAppend([], early[0], cutoff);
    RecentAppend([] + [early[0]], early[1], cutoff);
    RecentAppend([] + [early[0]] + [early[1]], e, cutoff);
    RecentAppend([] + [early[0]] + [early[1]] + [e], f, cutoff);
  }

  lemma AfterSweep(now: int, holder: Session, claimer: Session, a: Branch, b: Branch)
    requires SafeRef(a) && SafeRef(b) && a != b
    ensures var p, later := After(ClaimsOnly(now, holder, claimer, a, b)), now + EVENT_RETENTION + 1;
            && p.requests == map[a := ClaimedRow(holder, claimer, now, later),
                                 b := ClaimedRow(holder, claimer, now, later)]
            && p.events == [ClaimedEvent(3, a, later), ClaimedEvent(4, b, later)] && p.cursors == map[]
  {
    var later := now + EVENT_RETENTION + 1;
    var h := TwoRequests(now, holder, a, b) + TwoClaims(later, claimer, a, b);
    AfterRequests(now, holder, a, b);
    AfterClaims(now, later, holder, claimer, a, b);
    AfterOneMore(h, Call(later, Collect));
    RecentDrops(After(TwoRequests(now, holder, a, b)).events, ClaimedEvent(3, a, later), ClaimedEvent(4, b, later),
                later - EVENT_RETENTION);
    assert Kept(After(h).requests, later) == After(h).requests;
  }

  lemma HolderIsTold(p: Plane, holder: Session, id: nat, branch: Branch, now: int, filter: Branch)
    requires branch in p.requests && p.requests[branch].holder == holder && (filter == "" || filter == branch)
    ensures Shown(p.requests, holder, filter, ClaimedEvent(id, branch, now))
  {
    var e := ClaimedEvent(id, branch, now);
    assert e.audience[0] == BRANCH_PREFIX[0] != INTEGRATOR[0];
    assert e.audience[|BRANCH_PREFIX|..] == branch && BRANCH_PREFIX <= e.audience;
  }

  /**
   Five calls from an empty plane lead there: the holder of two branches polls for the second one, and is
   never told that the first was claimed before it.
   */
  lemma SkipIsReached(now: int, holder: Session, claimer: Session, a: Branch, b: Branch)
    requires SafeRef(a) && SafeRef(b) && a != b
    ensures var p := After(ClaimsOnly(now, holder, claimer, a, b));
            var out, q := Polled(p, holder, b, 0), Exec(p, now + EVENT_RETENTION + 1, Poll(holder, b, 0)).0;
            exists e :: e in p.events && e.branch == a && Shown(q.requests, holder, "", e)
              && e !in out && Cursor(p, holder) < e.id < Cursor(q, holder)
  {
    var p, later := After(ClaimsOnly(now, holder, claimer, a, b)), now + EVENT_RETENTION + 1;
    var e, f := ClaimedEvent(3, a, later), ClaimedEvent(4, b, later);
    AfterSweep(now, holder, claimer, a, b);
    AfterInv(ClaimsOnly(now, holder, claimer, a, b));
    HolderIsTold(p, holder, 3, a, later, "");
    HolderIsTold(p, holder, 4, b, later, b);
    FilterSkipsOlder(p, holder, e, f, later);
    assert e in p.events && e.branch == a;
  }
}
