/**
 The review plane: one request row per branch, an append-only event log and one cursor per
 consumer. A call is one atomic step on these tables; its clock reading is a parameter.
 */
module ReviewTables {
  import opened Basics

  type Branch = string
  type Session = string

  datatype Status = Requested | Claimed | ChangesRequested | Approved | Withdrawn

  datatype Record = Record(title: string, holder: Session, claimer: Session, status: Status,
                           feedback: string, merge: string, created: int, updated: int)

  datatype Event = Event(id: nat, audience: string, kind: string, branch: Branch, created: int)

  /** nextId is the events table's AUTOINCREMENT counter, which deletes never lower. */
  datatype Plane = Plane(requests: map<Branch, Record>, events: seq<Event>, nextId: nat, cursors: map<Session, nat>)

  const EMPTY := Plane(map[], [], 1, map[])

  const HOUR := 3_600_000_000_000
  const TERMINAL_RETENTION := HOUR
  const ABANDONED_RETENTION := 24 * HOUR
  const EVENT_RETENTION := 24 * HOUR
  const DEFAULT_MAX := 50
  const MAX_CAP := 200
  const INTEGRATOR := "integrator"
  const BRANCH_PREFIX := "branch:"

  // ---- small predicates -----------------------------------------------------------------

  predicate SafeRef(s: string) {
    s != "" && s[0] != '-' &&
    forall c | c in s :: 'a' <= c <= 'z' || 'A' <= c <= 'Z' || '0' <= c <= '9' || c == '/' || c == '.' || c == '-'
      || c == '_'
  }

  predicate IsSpace(c: char) {
    '\U{0009}' <= c <= '\U{000D}' || c == ' ' || c == '\U{0085}' || c == '\U{00A0}' || c == '\U{1680}'
    || '\U{2000}' <= c <= '\U{200A}' || c == '\U{2028}' || c == '\U{2029}' || c == '\U{202F}' || c == '\U{205F}'
      || c == '\U{3000}'
  }

  /** Nothing is left after trimming. */
  predicate Blank(s: string) {
    forall c | c in s :: IsSpace(c)
  }

  predicate Is(requests: map<Branch, Record>, branch: Branch, status: Status) {
    branch in requests && requests[branch].status == status
  }

  /** What a call may say of a row: not there, or its status. */
  function StatusOf(requests: map<Branch, Record>, branch: Branch): Option<Status> {
    if branch in requests then Some(requests[branch].status) else None
  }

  // ---- the event log ------------------------------------------------------------------------

  function Append(p: Plane, audience: string, kind: string, branch: Branch, now: int): Plane {
    p.(events := p.events + [Event(p.nextId, audience, kind, branch, now)], nextId := p.nextId + 1)
  }

  function AppendRequeued(p: Plane, branches: seq<Branch>, now: int): Plane {
    if branches == [] then p
    else Append(AppendRequeued(p, Front(branches), now), INTEGRATOR, "integration.requeued", Last(branches), now)
  }

  /** Never more than asked for, except by default; never less, except above the cap. */
  function NormalMax(max: int): (m: nat)
    ensures 1 <= m <= 200
    ensures m > max ==> m == 50 && max <= 0
    ensures m < max ==> m == 200
  {
    if max <= 0 then DEFAULT_MAX else if max > MAX_CAP then MAX_CAP else max
  }

  /** The holder column of the joined request row; empty when there is none. */
  function HolderOf(requests: map<Branch, Record>, branch: Branch): Session {
    if branch in requests then requests[branch].holder else ""
  }

  predicate AuthorizedForEvent(requests: map<Branch, Record>, session: Session, ev: Event) {
    if ev.audience == INTEGRATOR then !Blank(session)
    else if !(BRANCH_PREFIX <= ev.audience) || ev.audience[|BRANCH_PREFIX|..] != ev.branch then false
    else ev.branch == "nm/" + session || HolderOf(requests, ev.branch) == session
  }

  /** The row passes the branch filter of the query and the authorization callback. */
  predicate Shown(requests: map<Branch, Record>, session: Session, filter: Branch, ev: Event) {
    && (filter != "" ==> ev.branch == filter && ev.audience != INTEGRATOR)
    && AuthorizedForEvent(requests, session, ev)
  }

  /** The events of a log that a session would be shown, among ids beyond after. */
  function Visible(events: seq<Event>, requests: map<Branch, Record>, session: Session, filter: Branch, after: nat)
    : seq<Event>
  {
    if events == [] then []
    else
      var rest := Visible(Front(events), requests, session, filter, after);
      if after < Last(events).id && Shown(requests, session, filter, Last(events)) then rest + [Last(events)] else rest
  }

  function Cursor(p: Plane, session: Session): nat {
    if session in p.cursors then p.cursors[session] else 0
  }

  function Take<T>(s: seq<T>, n: nat): seq<T> {
    if |s| <= n then s else s[..n]
  }

  function Polled(p: Plane, session: Session, filter: Branch, max: int): seq<Event> {
    Take(Visible(p.events, p.requests, session, filter, Cursor(p, session)), NormalMax(max))
  }

  function Recent(events: seq<Event>, cutoff: int): seq<Event> {
    if events == [] then []
    else if Last(events).created < cutoff then Recent(Front(events), cutoff)
    else Recent(Front(events), cutoff) + [Last(events)]
  }

  // ---- calls ----------------------------------------------------------------------------------

  /** order is the order in which the sweep's query returned the stale rows. */
  datatype Op =
    | Request(session: Session, branch: Branch, title: string)
    | Claim(session: Session, branch: Branch)
    | Verdict(session: Session, branch: Branch, decision: string, feedback: string, merge: string)
    | Cancel(session: Session, branch: Branch)
    | Reclaim(dead: set<Session>, order: seq<Branch>)
    | Collect
    | Poll(session: Session, filter: Branch, max: int)

  datatype Reply =
    | Stored(record: Record)
    | InvalidBranch
    | ClaimReply(ok: bool, current: Option<Record>)
    | VerdictReply(ok: bool, status: Option<Status>)
    | FeedbackRequired
    | BadDecision
    | CancelReply(ok: bool)
    | Requeued(count: nat)
    | Collected
    | Delivered(events: seq<Event>)

  function SetRow(p: Plane, branch: Branch, row: Record): Plane {
    p.(requests := p.requests[branch := row])
  }

  function RequestStep(p: Plane, now: int, session: Session, branch: Branch, title: string): (Plane, Reply) {
    if !SafeRef(branch) then (p, InvalidBranch)
    else
      var row :=
        if branch !in p.requests then Record(title, session, "", Requested, "", "", now, now)
        else Record(if title == "" then p.requests[branch].title else title, session, "", Requested, "", "",
                    p.requests[branch].created, now);
      (Append(SetRow(p, branch, row), INTEGRATOR, "integration.requested", branch, now), Stored(row))
  }

  function ClaimStep(p: Plane, now: int, session: Session, branch: Branch): (Plane, Reply) {
    if !Is(p.requests, branch, Requested) then
      (p, ClaimReply(false, if branch in p.requests then Some(p.requests[branch]) else None))
    else
      var row := p.requests[branch].(status := Claimed, claimer := session, updated := now);
      (Append(SetRow(p, branch, row), BRANCH_PREFIX + branch, "integration.claimed", branch, now),
        ClaimReply(true, Some(row)))
  }

  function VerdictStep(p: Plane, now: int, branch: Branch, decision: string, feedback: string, merge: string)
    : (Plane, Reply)
  {
    if decision != "approve" && decision != "reject" then (p, BadDecision)
    else if decision == "reject" && Blank(feedback) then (p, FeedbackRequired)
    else if !Is(p.requests, branch, Claimed) then (p, VerdictReply(false, StatusOf(p.requests, branch)))
    else
      var row :=
        if decision == "approve" then p.requests[branch].(status := Approved, merge := merge, updated := now)
        else p.requests[branch].(status := ChangesRequested, feedback := feedback, updated := now);
      (Append(SetRow(p, branch, row), BRANCH_PREFIX + branch, "integration.verdict", branch, now),
        VerdictReply(true, Some(row.status)))
  }

  function CancelStep(p: Plane, now: int, branch: Branch): (Plane, Reply) {
    if Is(p.requests, branch, Requested) || Is(p.requests, branch, Claimed) then
      (SetRow(p, branch, p.requests[branch].(status := Withdrawn, updated := now)), CancelReply(true))
    else (p, CancelReply(false))
  }

  predicate Stale(row: Record, dead: set<Session>) {
    row.status == Claimed && row.claimer in dead
  }

  function Requeue(row: Record, now: int): Record {
    row.(status := Requested, claimer := "", feedback := "", updated := now)
  }

  /** One guarded update per claimed row of a dead session. */
  function RequeueStale(requests: map<Branch, Record>, dead: set<Session>, now: int): map<Branch, Record> {
    map b | b in requests :: if Stale(requests[b], dead) then Requeue(requests[b], now) else requests[b]
  }

  function ReclaimStep(p: Plane, now: int, dead: set<Session>, order: seq<Branch>): (Plane, Reply) {
    (AppendRequeued(p.(requests := RequeueStale(p.requests, dead, now)), order, now), Requeued(|order|))
  }

  predicate TerminalExpired(row: Record, now: int) {
    (row.status == Approved || row.status == Withdrawn) && row.updated < now - TERMINAL_RETENTION
  }

  predicate AbandonedExpired(row: Record, now: int) {
    (row.status == Requested || row.status == ChangesRequested) && row.updated < now - ABANDONED_RETENTION
  }

  function DropTerminal(requests: map<Branch, Record>, now: int): map<Branch, Record> {
    map b | b in requests && !TerminalExpired(requests[b], now) :: requests[b]
  }

  function DropAbandoned(requests: map<Branch, Record>, now: int): map<Branch, Record> {
    map b | b in requests && !AbandonedExpired(requests[b], now) :: requests[b]
  }

  /** A branch under review never goes cold. */
  function Kept(requests: map<Branch, Record>, now: int): map<Branch, Record> {
    map b | b in requests && !TerminalExpired(requests[b], now) && !AbandonedExpired(requests[b], now) :: requests[b]
  }

  function CollectStep(p: Plane, now: int): (Plane, Reply) {
    (p.(requests := Kept(p.requests, now), events := Recent(p.events, now - EVENT_RETENTION)), Collected)
  }

  function PollStep(p: Plane, session: Session, filter: Branch, max: int): (Plane, Reply) {
    var out := Polled(p, session, filter, max);
    (if out == [] then p else p.(cursors := p.cursors[session := Last(out).id]), Delivered(out))
  }

  function Exec(p: Plane, now: int, op: Op): (Plane, Reply) {
    match op
    case Request(session, branch, title) => RequestStep(p, now, session, branch, title)
    case Claim(session, branch) => ClaimStep(p, now, session, branch)
    case Verdict(_, branch, decision, feedback, merge) => VerdictStep(p, now, branch, decision, feedback, merge)
    case Cancel(_, branch) => CancelStep(p, now, branch)
    case Reclaim(dead, order) => ReclaimStep(p, now, dead, order)
    case Collect => CollectStep(p, now)
    case Poll(session, filter, max) => PollStep(p, session, filter, max)
  }

  // ---- histories --------------------------------------------------------------------------------

  datatype Call = Call(now: int, op: Op)

  function After(h: seq<Call>): Plane {
    if h == [] then EMPTY else Exec(After(Front(h)), Last(h).now, Last(h).op).0
  }

  function ReplyTo(h: seq<Call>, k: nat): Reply
    requires k < |h|
  {
    Exec(After(h[..k]), h[k].now, h[k].op).1
  }

  lemma AfterNext(h: seq<Call>, k: nat)
    requires k < |h|
    ensures After(h[..k + 1]) == Exec(After(h[..k]), h[k].now, h[k].op).0
  {
    assert Front(h[..k + 1]) == h[..k];
  }
}
