/** The review plane as one object over its tables, every call proved against its table function. */
module ReviewPlane {
  import opened Basics
  import opened ReviewTables
  import opened EventLog

  class ReviewPlane {
    var requests: map<Branch, Record>
    var events: seq<Event>
    var nextId: nat
    var cursors: map<Session, nat>

    function Tab(): Plane
      reads this
    {
      Plane(requests, events, nextId, cursors)
    }

    constructor ()
      ensures Tab() == EMPTY
    {
      requests, events, nextId, cursors := map[], [], 1, map[];
    }

    method AppendEvent(now: int, audience: string, kind: string, branch: Branch)
      modifies this`events, this`nextId
      ensures Tab() == Append(old(Tab()), audience, kind, branch, now)
    {
      events := events + [Event(nextId, audience, kind, branch, now)];
      nextId := nextId + 1;
    }

    method UpsertRequest(now: int, branch: Branch, title: string, holder: Session) returns (row: Record)
      modifies this`requests
      ensures requests == old(requests)[branch := row]
      ensures row.status == Requested && row.holder == holder && row.claimer == "" && row.feedback == ""
      ensures row.merge == "" && row.updated == now
      ensures branch !in old(requests) ==> row.title == title && row.created == now
      ensures branch in old(requests) ==>
                row.created == old(requests)[branch].created
                  && row.title == if title == "" then old(requests)[branch].title else title
    {
      if branch !in requests {
        row := Record(title, holder, "", Requested, "", "", now, now);
        requests := requests[branch := row];
        return;
      }
      var newTitle := title;
      if newTitle == "" {
        newTitle := requests[branch].title;
      }
      row := requests[branch].(title := newTitle, holder := holder, claimer := "", status := Requested,
                               feedback := "", merge := "", updated := now);
      requests := requests[branch := row];
    }

    method Request(now: int, session: Session, branch: Branch, title: string) returns (r: Reply)
      modifies this
      ensures (Tab(), r) == RequestStep(old(Tab()), now, session, branch, title)
    {
      if !SafeRef(branch) {
        return InvalidBranch;
      }
      var row := UpsertRequest(now, branch, title, session);
      AppendEvent(now, INTEGRATOR, "integration.requested", branch);
      return Stored(row);
    }

    /** An event addressed to a branch reaches the holder of its row. */
    static lemma ToldTheHolder(requests: map<Branch, Record>, branch: Branch, ev: Event)
      requires branch in requests && ev.branch == branch && ev.audience == BRANCH_PREFIX + branch
      ensures AuthorizedForEvent(requests, requests[branch].holder, ev)
    {
      assert ev.audience[0] == 'b' && INTEGRATOR[0] == 'i';
      assert ev.audience[|BRANCH_PREFIX|..] == branch;
    }

    /** One claimer at a time: a claim succeeds on a waiting branch only, and then it waits no longer. */
    method Claim(now: int, session: Session, branch: Branch) returns (r: Reply)
      modifies this
      ensures r.ClaimReply? && (r.ok <==> Is(old(requests), branch, Requested))
      ensures r.current == if branch in requests then Some(requests[branch]) else None
      ensures r.ok ==> Is(requests, branch, Claimed) && requests[branch].claimer == session
                       && requests[branch].holder == old(requests)[branch].holder
      ensures r.ok ==> |events| == |old(events)| + 1 && old(events) < events && Last(events).id == old(nextId)
                       && Last(events).branch == branch
                       && AuthorizedForEvent(requests, requests[branch].holder, Last(events))
      ensures !r.ok ==> Tab() == old(Tab())
      ensures requests - {branch} == old(requests) - {branch} && cursors == old(cursors)
      ensures (Tab(), r) == ClaimStep(old(Tab()), now, session, branch)
    {
      if !Is(requests, branch, Requested) {
        return ClaimReply(false, if branch in requests then Some(requests[branch]) else None);
      }
      requests := requests[branch := requests[branch].(status := Claimed, claimer := session, updated := now)];
      AppendEvent(now, BRANCH_PREFIX + branch, "integration.claimed", branch);
      ToldTheHolder(requests, branch, Last(events));
      return ClaimReply(true, Some(requests[branch]));
    }

    method Approve(now: int, branch: Branch, merge: string) returns (ok: bool)
      modifies this`requests
      ensures ok == Is(old(requests), branch, Claimed)
      ensures requests ==
                if !ok then old(requests)
                else old(requests)[branch := old(requests)[branch].(status := Approved, merge := merge, updated := now)]
    {
      ok := Is(requests, branch, Claimed);
      if ok {
        requests := requests[branch := requests[branch].(status := Approved, merge := merge, updated := now)];
      }
    }

    method Reject(now: int, branch: Branch, feedback: string) returns (ok: bool)
      modifies this`requests
      ensures ok == Is(old(requests), branch, Claimed)
      ensures requests ==
                if !ok then old(requests)
                else old(requests)[branch := old(requests)[branch].(status := ChangesRequested, feedback := feedback,
                                                                    updated := now)]
    {
      ok := Is(requests, branch, Claimed);
      if ok {
        requests := requests[branch := requests[branch].(status := ChangesRequested, feedback := feedback,
                                                         updated := now)];
      }
    }

    method Verdict(now: int, session: Session, branch: Branch, decision: string, feedback: string, merge: string)
      returns (r: Reply)
      modifies this
      ensures r.VerdictReply? && r.ok ==>
                && branch in old(requests) && old(requests)[branch].status == Claimed && branch in requests
                && requests[branch] == if decision == "approve"
                                       then old(requests)[branch].(status := Approved, merge := merge, updated := now)
                                       else old(requests)[branch].(status := ChangesRequested, feedback := feedback,
                                                                   updated := now)
      ensures r.BadDecision? <==> decision != "approve" && decision != "reject"
      ensures r.FeedbackRequired? <==> decision == "reject" && Blank(feedback)
      ensures !(r.VerdictReply? && r.ok) ==> Tab() == old(Tab())
      ensures requests - {branch} == old(requests) - {branch} && cursors == old(cursors)
      ensures (Tab(), r) == VerdictStep(old(Tab()), now, branch, decision, feedback, merge)
    {
      var ok;
      if decision == "approve" {
        ok := Approve(now, branch, merge);
      } else if decision == "reject" {
        if Blank(feedback) {
          return FeedbackRequired;
        }
        ok := Reject(now, branch, feedback);
      } else {
        return BadDecision;
      }
      if ok {
        AppendEvent(now, BRANCH_PREFIX + branch, "integration.verdict", branch);
      }
      return VerdictReply(ok, StatusOf(requests, branch));
    }

    /** Only a branch still waiting or under review is withdrawn: a verdict is never overwritten. */
    method Cancel(now: int, session: Session, branch: Branch) returns (r: Reply)
      modifies this`requests
      ensures r.CancelReply? && (r.ok <==> Is(old(requests), branch, Requested) || Is(old(requests), branch, Claimed))
      ensures r.ok ==> Is(requests, branch, Withdrawn) && requests[branch].feedback == old(requests)[branch].feedback
                       && requests[branch].merge == old(requests)[branch].merge
      ensures !Is(requests, branch, Requested) && !Is(requests, branch, Claimed)
      ensures !r.ok ==> requests == old(requests)
      ensures requests - {branch} == old(requests) - {branch}
      ensures (Tab(), r) == CancelStep(old(Tab()), now, branch)
    {
      if Is(requests, branch, Requested) || Is(requests, branch, Claimed) {
        requests := requests[branch := requests[branch].(status := Withdrawn, updated := now)];
        return CancelReply(true);
      }
      return CancelReply(false);
    }

    /** One guarded update per claimed row; the rows come in whatever order the query yields. */
    method ReclaimRows(now: int, dead: set<Session>) returns (order: seq<Branch>)
      modifies this`requests
      ensures requests == RequeueStale(old(requests), dead, now)
      ensures forall b :: b in order <==> b in old(requests) && Stale(old(requests)[b], dead)
      ensures forall i, j | 0 <= i < j < |order| :: order[i] != order[j]
    {
      order := [];
      ghost var was := requests;
      var rows := set b | b in requests && requests[b].status == Claimed;
      ghost var claimed := rows;
      while rows != {}
        invariant rows <= claimed && claimed == set b | b in was && was[b].status == Claimed
        invariant requests.Keys == was.Keys
        invariant forall b | b in was :: requests[b] ==
                    if b !in rows && Stale(was[b], dead) then Requeue(was[b], now) else was[b]
        invariant forall b :: b in order <==> b in was && Stale(was[b], dead) && b !in rows
        invariant forall i, j | 0 <= i < j < |order| :: order[i] != order[j]
        decreases |rows|
      {
        var b :| b in rows;
        rows := rows - {b};
        if requests[b].claimer in dead && requests[b].status == Claimed {
          requests := requests[b := requests[b].(status := Requested, claimer := "", feedback := "", updated := now)];
          order := order + [b];
        }
      }
    }

    method ReclaimStaleClaims(now: int, dead: set<Session>) returns (r: Reply, order: seq<Branch>)
      modifies this
      ensures (Tab(), r) == ReclaimStep(old(Tab()), now, dead, order)
      ensures forall b :: b in order <==> b in old(requests) && Stale(old(requests)[b], dead)
      ensures forall i, j | 0 <= i < j < |order| :: order[i] != order[j]
    {
      order := ReclaimRows(now, dead);
      ghost var p := Tab();
      for i := 0 to |order|
        invariant Tab() == AppendRequeued(p, order[..i], now)
      {
        assert Front(order[..i + 1]) == order[..i];
        AppendEvent(now, INTEGRATOR, "integration.requeued", order[i]);
      }
      assert order[..|order|] == order;
      r := Requeued(|order|);
    }

    method GCEvents(now: int)
      modifies this`events
      ensures events == Recent(old(events), now - EVENT_RETENTION)
    {
      var kept := [];
      for i := 0 to |events|
        invariant events == old(events) && kept == Recent(events[..i], now - EVENT_RETENTION)
      {
        assert Front(events[..i + 1]) == events[..i];
        if events[i].created >= now - EVENT_RETENTION {
          kept := kept + [events[i]];
        }
      }
      assert events[..|events|] == events;
      events := kept;
    }

    static lemma CountDeletes(all: set<Branch>, first: set<Branch>, second: set<Branch>)
      requires second <= first <= all
      ensures |all - first| + |first - second| == |all - second|
    {
      assert (all - first) + (first - second) == all - second;
      assert (all - first) !! (first - second);
    }

    /** DELETE the terminal rows gone cold; returns how many. */
    method DeleteTerminal(now: int) returns (n: nat)
      modifies this`requests
      ensures requests == DropTerminal(old(requests), now)
      ensures n == |old(requests).Keys - requests.Keys|
    {
      var before := requests.Keys;
      requests := DropTerminal(requests, now);
      n := |before - requests.Keys|;
    }

    /** DELETE the abandoned rows gone cold; returns how many. */
    method DeleteAbandoned(now: int) returns (n: nat)
      modifies this`requests
      ensures requests == DropAbandoned(old(requests), now)
      ensures n == |old(requests).Keys - requests.Keys|
    {
      var before := requests.Keys;
      requests := DropAbandoned(requests, now);
      n := |before - requests.Keys|;
    }

    static lemma DropsAreKept(rows: map<Branch, Record>, now: int)
      ensures DropAbandoned(DropTerminal(rows, now), now) == Kept(rows, now)
      ensures Kept(rows, now).Keys <= DropTerminal(rows, now).Keys <= rows.Keys
    {
    }

    method GCRequests(now: int) returns (total: nat)
      modifies this`requests
      ensures requests == Kept(old(requests), now) && total == |old(requests).Keys - requests.Keys|
    {
      DropsAreKept(requests, now);
      ghost var first := DropTerminal(requests, now);
      var terminal := DeleteTerminal(now);
      var abandoned := DeleteAbandoned(now);
      CountDeletes(old(requests).Keys, first.Keys, requests.Keys);
      total := terminal + abandoned;
    }

    /** Two bounded deletes, then the events; total is the number of rows deleted. */
    method GCStale(now: int) returns (total: nat)
      modifies this
      ensures (Tab(), Collected) == CollectStep(old(Tab()), now)
      ensures total == |old(requests).Keys - requests.Keys|
    {
      total := GCRequests(now);
      GCEvents(now);
    }

    /** A scan that stopped at the limit or at the end has the first visible events. */
    static lemma ScanIsTake(events: seq<Event>, i: nat, requests: map<Branch, Record>, session: Session, filter: Branch,
                            after: nat, limit: nat)
      requires i <= |events|
      requires var out := Visible(events[..i], requests, session, filter, after);
               |out| == limit || (i == |events| && |out| < limit)
      ensures Visible(events[..i], requests, session, filter, after)
              == Take(Visible(events, requests, session, filter, after), limit)
    {
      VisiblePrefix(events, i, requests, session, filter, after);
      if i == |events| { assert events[..i] == events; }
    }

    static lemma {:induction false} VisiblePrefix(events: seq<Event>, i: nat, requests: map<Branch, Record>,
                                                  session: Session, filter: Branch, after: nat)
      requires i <= |events|
      ensures Visible(events[..i], requests, session, filter, after)
              <= Visible(events, requests, session, filter, after)
      decreases |events|
    {
      if i == |events| {
        assert events[..i] == events;
      } else {
        VisiblePrefix(Front(events), i, requests, session, filter, after);
        assert Front(events)[..i] == events[..i];
      }
    }

    /** Scan the rows after the cursor, keep the authorized ones, stop at the limit. */
    static method Scan(events: seq<Event>, requests: map<Branch, Record>, session: Session, filter: Branch,
                       last: nat, limit: nat) returns (out: seq<Event>)
      requires limit > 0
      ensures out == Take(Visible(events, requests, session, filter, last), limit)
    {
      out := [];
      var i := 0;
      while i < |events|
        invariant i <= |events| && |out| < limit
        invariant out == Visible(events[..i], requests, session, filter, last)
      {
        assert Front(events[..i + 1]) == events[..i];
        var ev := events[i];
        i := i + 1;
        if ev.id > last && (filter == "" || ev.branch == filter) {
          if (filter != "" && ev.audience == INTEGRATOR) || !AuthorizedForEvent(requests, session, ev) {
            continue;
          }
          out := out + [ev];
          if |out| == limit {
            break;
          }
        }
      }
      ScanIsTake(events, i, requests, session, filter, last, limit);
    }

    /** Read and advance: hand over the first authorized events and move the cursor to the last of them. */
    method Events(session: Session, filter: Branch, max: int) returns (out: seq<Event>)
      modifies this`cursors
      ensures session != "" ==> forall e | e in out :: MayRead(requests, session, filter, e)
      ensures (Tab(), Delivered(out)) == PollStep(old(Tab()), session, filter, max)
    {
      var last := if session in cursors then cursors[session] else 0;
      out := Scan(events, requests, session, filter, last, NormalMax(max));
      if |out| > 0 {
        cursors := cursors[session := out[|out| - 1].id];
      }
      if session != "" {
        forall e | e in out ensures MayRead(requests, session, filter, e) {
          PolledIsAuthorized(old(Tab()), session, filter, max, e);
        }
      }
    }
  }
}
