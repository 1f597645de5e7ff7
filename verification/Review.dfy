/** Request rows over whole histories: their shape, their legal moves, and who may decide. */
module Review {
  import opened Basics
  import opened ReviewTables

  // ---- the shape of a row -------------------------------------------------------------------

  /** What a row in each state may carry. */
  predicate Shape(row: Record) {
    match row.status
    case Requested => row.claimer == "" && row.feedback == "" && row.merge == ""
    case Claimed => row.feedback == "" && row.merge == ""
    case ChangesRequested => !Blank(row.feedback) && row.merge == ""
    case Approved => row.feedback == ""
    case Withdrawn => row.feedback == "" && row.merge == ""
  }

  predicate Shaped(requests: map<Branch, Record>) {
    forall b | b in requests :: SafeRef(b) && Shape(requests[b])
  }

  lemma {:induction false} AppendsNothingElse(p: Plane, branches: seq<Branch>, now: int)
    ensures var t := AppendRequeued(p, branches, now);
            t.requests == p.requests && t.cursors == p.cursors && t.nextId == p.nextId + |branches|
  {
    if branches != [] { AppendsNothingElse(p, Front(branches), now); }
  }

  lemma ExecShaped(p: Plane, now: int, op: Op)
    requires Shaped(p.requests)
    ensures Shaped(Exec(p, now, op).0.requests)
  {
    if op.Reclaim? {
      AppendsNothingElse(p.(requests := RequeueStale(p.requests, op.dead, now)), op.order, now);
    }
  }

  /** In every run every row has the shape of its state. */
  lemma {:induction false} RowsKeepTheirShape(h: seq<Call>)
    ensures Shaped(After(h).requests)
  {
    if h != [] {
      RowsKeepTheirShape(Front(h));
      ExecShaped(After(Front(h)), Last(h).now, Last(h).op);
    }
  }

  // ---- legal moves ----------------------------------------------------------------------------

  /** The call asked for this branch and was accepted. */
  predicate Asks(p: Plane, c: Call, branch: Branch) {
    c.op.Request? && c.op.branch == branch && Exec(p, c.now, c.op).1.Stored?
  }

  predicate Claims(p: Plane, c: Call, branch: Branch) {
    c.op.Claim? && c.op.branch == branch && Exec(p, c.now, c.op).1.ok
  }

  predicate Decides(p: Plane, c: Call, branch: Branch) {
    c.op.Verdict? && c.op.branch == branch && Exec(p, c.now, c.op).1.VerdictReply? && Exec(p, c.now, c.op).1.ok
  }

  predicate Requeues(p: Plane, c: Call, branch: Branch) {
    c.op.Reclaim? && branch in p.requests && Stale(p.requests[branch], c.op.dead)
  }

  /** A row changes state only by the call entitled to: this is the whole table of moves. */
  lemma Moves(p: Plane, c: Call, branch: Branch)
    ensures var q := Exec(p, c.now, c.op).0;
            var before, after := StatusOf(p.requests, branch), StatusOf(q.requests, branch);
            && (Asks(p, c, branch) ==> after == Some(Requested))
            && (Claims(p, c, branch) ==>
                 before == Some(Requested) && after == Some(Claimed) && q.requests[branch].claimer == c.op.session)
            && (Decides(p, c, branch) ==>
                 before == Some(Claimed) && (after == Some(Approved) || after == Some(ChangesRequested)))
            && (after == Some(Requested) && !Asks(p, c, branch) && !Requeues(p, c, branch) ==>
                 before == Some(Requested))
            && (after == Some(Claimed) && !Claims(p, c, branch) ==>
                 before == after && q.requests[branch] == p.requests[branch])
            && (after == Some(Approved) || after == Some(ChangesRequested) ==> before == after || Decides(p, c, branch))
            && (before == Some(Claimed) && after != before ==>
                 Asks(p, c, branch) || Decides(p, c, branch) || Requeues(p, c, branch) || c.op.Cancel?)
  {
    if c.op.Reclaim? {
      AppendsNothingElse(p.(requests := RequeueStale(p.requests, c.op.dead, c.now)), c.op.order, c.now);
    }
  }

  /**
   What a verdict does, by its decision: approve approves and stores the merge commit, reject sends the
   branch back and stores the feedback; holder, claimer and title stay.
   */
  lemma VerdictDecides(p: Plane, c: Call, branch: Branch)
    requires Decides(p, c, branch)
    ensures branch in p.requests && branch in Exec(p, c.now, c.op).0.requests
    ensures var was, row := p.requests[branch], Exec(p, c.now, c.op).0.requests[branch];
            && (c.op.decision == "approve" <==> row.status == Approved)
            && (c.op.decision == "reject" <==> row.status == ChangesRequested)
            && (row.status == Approved ==> row.merge == c.op.merge && row.feedback == was.feedback)
            && (row.status == ChangesRequested ==> row.feedback == c.op.feedback && row.merge == was.merge)
            && row.holder == was.holder && row.claimer == was.claimer && row.title == was.title && row.updated == c.now
            && Exec(p, c.now, c.op).1 == VerdictReply(true, Some(row.status))
  {
  }

  /** Visible characters make a text not blank, and spaces, tabs and line ends alone do not. */
  lemma BlankTexts(s: string)
    ensures (exists c | c in s :: '!' <= c <= '~') ==> !Blank(s)
    ensures (forall c | c in s :: c in " \t\n\r") ==> Blank(s)
  {
    assert " \t\n\r" == [' ', '\t', '\n', '\r'];
    if c :| c in s && '!' <= c <= '~' { assert !IsSpace(c); }
  }

  /** White space is the 25 characters Unicode gives that property. */
  lemma SpacesAre(c: char)
    ensures IsSpace(c) <==>
              c in ['\t', '\n', '\U{000B}', '\U{000C}', '\r', ' ', '\U{0085}', '\U{00A0}', '\U{1680}', '\U{2000}',
                    '\U{2001}', '\U{2002}', '\U{2003}', '\U{2004}', '\U{2005}', '\U{2006}', '\U{2007}', '\U{2008}',
                    '\U{2009}', '\U{200A}', '\U{2028}', '\U{2029}', '\U{202F}', '\U{205F}', '\U{3000}']
  {
  }

  /** A verdict is taken exactly from a branch under review, with a known decision, and a reason if it rejects. */
  lemma VerdictTakenIff(p: Plane, c: Call)
    requires c.op.Verdict?
    ensures Decides(p, c, c.op.branch) <==>
              && c.op.branch in p.requests && p.requests[c.op.branch].status == Claimed
              && (c.op.decision == "approve" || (c.op.decision == "reject" && !Blank(c.op.feedback)))
    ensures !Decides(p, c, c.op.branch) ==> Exec(p, c.now, c.op).0 == p
  {
  }

  /** Which branch names are accepted: not empty, no option; letters, digits, slash, dot, dash and underscore. */
  lemma AskedIff(p: Plane, c: Call)
    requires c.op.Request?
    ensures Asks(p, c, c.op.branch) <==>
              var s := c.op.branch;
              && s != "" && s[0] != '-'
              && forall x | x in s :: x in "/.-_" || '0' <= x <= '9' || 'A' <= x <= 'Z' || 'a' <= x <= 'z'
    ensures !Asks(p, c, c.op.branch) ==> Exec(p, c.now, c.op) == (p, InvalidBranch)
  {
    assert "/.-_" == ['/', '.', '-', '_'];
  }

  /** After a sweep no dead session has a claim; its branches wait again, and every other row is as it was. */
  lemma SweepFreesClaims(p: Plane, c: Call, branch: Branch)
    requires c.op.Reclaim? && branch in p.requests
    ensures branch in Exec(p, c.now, c.op).0.requests
    ensures var was, row := p.requests[branch], Exec(p, c.now, c.op).0.requests[branch];
            if was.status == Claimed && was.claimer in c.op.dead
            then row.status == Requested && row.claimer == "" && row.holder == was.holder && row.title == was.title
            else row == was
  {
    AppendsNothingElse(p.(requests := RequeueStale(p.requests, c.op.dead, c.now)), c.op.order, c.now);
  }

  /** What a collection keeps: branches under review, decided ones for an hour, waiting ones for a day. */
  lemma CollectedIff(p: Plane, c: Call, branch: Branch)
    requires c.op.Collect? && branch in p.requests
    ensures var q, row, age := Exec(p, c.now, c.op).0, p.requests[branch], c.now - p.requests[branch].updated;
            && (branch in q.requests <==>
                  match row.status
                  case Claimed => true
                  case Approved => age <= 3_600_000_000_000
                  case Withdrawn => age <= 3_600_000_000_000
                  case Requested => age <= 86_400_000_000_000
                  case ChangesRequested => age <= 86_400_000_000_000)
            && (branch in q.requests ==> q.requests[branch] == row)
  {
  }

  /** Whatever changes a row stamps it with the reading of the call, which its retention counts from. */
  lemma ChangesAreStamped(p: Plane, c: Call, branch: Branch)
    requires branch in Exec(p, c.now, c.op).0.requests
    ensures var row := Exec(p, c.now, c.op).0.requests[branch];
            && (branch in p.requests ==> row.created == p.requests[branch].created)
            && (branch in p.requests && row != p.requests[branch] ==> row.updated == c.now)
            && (branch !in p.requests ==> row.created == c.now && row.updated == c.now)
  {
    if c.op.Reclaim? {
      AppendsNothingElse(p.(requests := RequeueStale(p.requests, c.op.dead, c.now)), c.op.order, c.now);
    }
  }

  predicate AsksAt(h: seq<Call>, k: nat, branch: Branch)
    requires k < |h|
  {
    Asks(After(h[..k]), h[k], branch)
  }

  predicate ClaimsAt(h: seq<Call>, k: nat, branch: Branch)
    requires k < |h|
  {
    Claims(After(h[..k]), h[k], branch)
  }

  predicate DecidesAt(h: seq<Call>, k: nat, branch: Branch)
    requires k < |h|
  {
    Decides(After(h[..k]), h[k], branch)
  }

  predicate InReview(p: Plane, branch: Branch) {
    Is(p.requests, branch, Requested) || Is(p.requests, branch, Claimed)
  }

  lemma DecidedStep(p: Plane, c: Call, branch: Branch)
    requires Decides(p, c, branch) || (!InReview(p, branch) && !Asks(p, c, branch))
    ensures !InReview(Exec(p, c.now, c.op).0, branch)
  {
    Moves(p, c, branch);
  }

  /** From a verdict on, until the builder asks again, the branch is neither waiting nor under review. */
  lemma {:induction false} DecidedUntilAsked(h: seq<Call>, i: nat, n: nat, branch: Branch)
    requires i < n <= |h| && DecidesAt(h, i, branch)
    requires forall k | i < k < n :: !AsksAt(h, k, branch)
    ensures !InReview(After(h[..n]), branch)
  {
    if n > i + 1 {
      DecidedUntilAsked(h, i, n - 1, branch);
      assert !AsksAt(h, n - 1, branch);
    } else {
      assert DecidesAt(h, n - 1, branch);
    }
    DecidedStep(After(h[..n - 1]), h[n - 1], branch);
    AfterNext(h, n - 1);
  }

  lemma UnclaimedStep(p: Plane, c: Call, branch: Branch)
    requires Asks(p, c, branch) || (!Is(p.requests, branch, Claimed) && !Claims(p, c, branch))
    ensures !Is(Exec(p, c.now, c.op).0.requests, branch, Claimed)
  {
    Moves(p, c, branch);
  }

  lemma {:induction false} UnclaimedUntilClaimed(h: seq<Call>, k: nat, n: nat, branch: Branch)
    requires k < n <= |h| && AsksAt(h, k, branch)
    requires forall m | k < m < n :: !ClaimsAt(h, m, branch)
    ensures !Is(After(h[..n]).requests, branch, Claimed)
  {
    if n > k + 1 {
      UnclaimedUntilClaimed(h, k, n - 1, branch);
      assert !ClaimsAt(h, n - 1, branch);
    } else {
      assert AsksAt(h, n - 1, branch);
    }
    UnclaimedStep(After(h[..n - 1]), h[n - 1], branch);
    AfterNext(h, n - 1);
  }

  /** Between two verdicts on a branch the builder asks again and, after that, an integrator claims again. */
  lemma VerdictsAreSeparated(h: seq<Call>, i: nat, j: nat, branch: Branch)
    requires i < j < |h| && DecidesAt(h, i, branch) && DecidesAt(h, j, branch)
    ensures exists k, m :: i < k < m < j && AsksAt(h, k, branch) && ClaimsAt(h, m, branch)
  {
    Moves(After(h[..j]), h[j], branch);
    if forall k | i < k < j :: !AsksAt(h, k, branch) {
      DecidedUntilAsked(h, i, j, branch);
      assert false;
    }
    var k :| i < k < j && AsksAt(h, k, branch);
    if forall m | k < m < j :: !ClaimsAt(h, m, branch) {
      UnclaimedUntilClaimed(h, k, j, branch);
      assert false;
    }
    var m :| k < m < j && ClaimsAt(h, m, branch);
  }

  /** A call that declares the session dead. */
  predicate Buries(c: Call, session: Session) {
    c.op.Reclaim? && session in c.op.dead
  }

  lemma {:induction false} ClaimHolds(h: seq<Call>, i: nat, n: nat, branch: Branch)
    requires i < n <= |h| && ClaimsAt(h, i, branch)
    requires forall k | i < k < n :: !AsksAt(h, k, branch) && !Buries(h[k], h[i].op.session)
    ensures var rows := After(h[..n]).requests;
            StatusOf(rows, branch) != Some(Requested)
              && (Is(rows, branch, Claimed) ==> rows[branch].claimer == h[i].op.session)
  {
    AfterNext(h, n - 1);
    Moves(After(h[..n - 1]), h[n - 1], branch);
    if n > i + 1 {
      ClaimHolds(h, i, n - 1, branch);
    }
  }

  /**
   Nobody claims a branch under review from a live integrator: a second claim needs a new request or
   the claimer's death.
   */
  lemma ClaimsAreExclusive(h: seq<Call>, i: nat, j: nat, branch: Branch)
    requires i < j < |h| && ClaimsAt(h, i, branch) && ClaimsAt(h, j, branch)
    ensures exists k :: i < k < j && (AsksAt(h, k, branch) || Buries(h[k], h[i].op.session))
  {
    Moves(After(h[..j]), h[j], branch);
    if forall k | i < k < j :: !AsksAt(h, k, branch) && !Buries(h[k], h[i].op.session) {
      ClaimHolds(h, i, j, branch);
      assert false;
    }
  }
}
