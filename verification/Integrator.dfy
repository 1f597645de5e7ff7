/**
 The integrator as the daemon runs it: one object whose calls change the rows, the ref
 and nothing else. Every call is shown to be a run of the statement-level machine, so
 what holds of all interleavings holds of it; Valid adds what serialized calls keep.
 A call may be cut off at any of the named fault points.
 */
module Integrator {
  import opened Basics
  import opened Git
  import opened TrunkMachine
  import opened TrunkSafety
  import opened TrunkSerial
  import opened TrunkCall

  datatype Fault = NoFault | AfterValidating | AfterLease | BeforeUpdateRef | AfterUpdateRef

  datatype Error = NotFound | AlreadyAborted | Unauthorized | BadBranch | GitFailed | Died

  datatype Outcome = Outcome(state: Option<RowState>, promoted: bool, tip: Option<Commit>, retryable: bool)

  const NOTHING := Outcome(None, false, None, false)

  /** The answer of a promote cut off before the ref update. */
  const CUT_OFF := Outcome(Some(Validating), false, None, false)

  /**
   What a promote of a validating row does, by case: refused, already landed, stale, cut off before
   the update, or landed (and then cut off or recorded). The ref moves in the last case only.
   */
  predicate LandOutcome(row: Row, tip: Option<Commit>, log: seq<Landing>, granted: bool, fault: Fault,
                    out: Outcome, err: Option<Error>, row': Row, tip': Option<Commit>, log': seq<Landing>,
                    id: string)
  {
    if !granted || fault == AfterLease then
      && row' == row && tip' == tip && log' == log && out == Outcome(Some(Validating), false, None, !granted)
      && err == if granted then Some(Died) else None
    else if Landed(row, tip) then
      row' == row.(state := Promoted) && tip' == tip && log' == log && out == Outcome(Some(Promoted), true, tip, false)
        && err == None
    else if tip != row.base then
      row' == row.(state := Aborted) && tip' == tip && log' == log && out == Outcome(Some(Aborted), false, None, true)
        && err == None
    else if fault == BeforeUpdateRef then
      row' == row && tip' == tip && log' == log && out == CUT_OFF && err == Some(Died)
    else
      && row.merge.Some? && tip' == row.merge && log' == log + [Land(id, tip, row.merge.value)]
      && (if fault == AfterUpdateRef then
            row' == row && out == Outcome(Some(Validating), true, tip', false) && err == Some(Died)
          else row' == row.(state := Promoted) && out == Outcome(Some(Promoted), true, tip', false) && err == None)
  }

  /** The row has just been recorded as validating: the call may be cut off there, or goes on to the lease. */
  predicate GatedOutcome(row: Row, tip: Option<Commit>, log: seq<Landing>, granted: bool, fault: Fault,
                         out: Outcome, err: Option<Error>, row': Row, tip': Option<Commit>, log': seq<Landing>,
                         id: string)
  {
    if fault == AfterValidating then row' == row && tip' == tip && log' == log && out == CUT_OFF && err == Some(Died)
    else LandOutcome(row, tip, log, granted, fault, out, err, row', tip', log', id)
  }

  /** The gate on a branch, or its rejection because the branch is gone. */
  function GateOf(mt: MergeTree, tip: Option<Commit>, branches: map<string, Commit>, branch: string): (r: GateResult)
    ensures r.Pass? ==> branch in branches
  {
    if branch in branches then Validate(mt, tip, branches[branch]) else Reject("")
  }

  /** What a promote of a received row does: gate first, then as for a validating row. */
  predicate ReceivedOutcome(mt: MergeTree, row: Row, tip: Option<Commit>, log: seq<Landing>,
                            branches: map<string, Commit>,
                            granted: bool, fault: Fault, out: Outcome, err: Option<Error>,
                            row': Row, tip': Option<Commit>, log': seq<Landing>, id: string)
  {
    match GateOf(mt, tip, branches, row.branch)
    case GateError => row' == row && tip' == tip && log' == log && out == NOTHING && err == Some(GitFailed)
    case Reject(_) =>
      && row' == row.(state := Aborted) && tip' == tip && log' == log
      && out == Outcome(Some(Aborted), false, None, false) && err == None
    case Pass(tree) =>
      var marked := MarkValidating(row, tip, MergeFor(id, row, tip, branches[row.branch], tree));
      GatedOutcome(marked, tip, log, granted, fault, out, err, row', tip', log', id)
  }

  /** The row has recorded the tree as the merge of the branch commit into the tip, and passed its gate. */
  predicate Records(row: Row, tip: Option<Commit>, source: Commit, tree: string) {
    && row.base == tip && row.gateOK && row.merge.Some? && row.merge.value.tree == tree
    && row.merge.value.parents == (if tip.Some? then [tip.value] else []) + [source]
  }

  /** What git says of the branch and the tip decides a received row. */
  predicate MergeDecides(mt: MergeTree, row: Row, tip: Option<Commit>, branches: map<string, Commit>,
                         out: Outcome, err: Option<Error>, row': Row, tip': Option<Commit>)
  {
    if row.branch !in branches then row' == row.(state := Aborted) && tip' == tip && !out.promoted
    else
      var source := branches[row.branch];
      match tip
      case None => Records(row', tip, source, source.tree)
      case Some(t) =>
        match mt(t, source)
        case Clean(tree) => Records(row', tip, source, tree)
        case Conflict(_) => row' == row.(state := Aborted) && tip' == tip && !out.promoted
        case Failed => row' == row && tip' == tip && err == Some(GitFailed)
  }

  /** The branch is there and git merges it, or there is no trunk yet. */
  predicate Mergeable(mt: MergeTree, row: Row, tip: Option<Commit>, branches: map<string, Commit>) {
    row.branch in branches && (tip.Some? ==> mt(tip.value, branches[row.branch]).Clean?)
  }

  lemma ReceivedFacts(mt: MergeTree, row: Row, tip: Option<Commit>, log: seq<Landing>, branches: map<string, Commit>,
                      granted: bool, fault: Fault, out: Outcome, err: Option<Error>,
                      row': Row, tip': Option<Commit>, log': seq<Landing>, id: string)
    requires ReceivedOutcome(mt, row, tip, log, branches, granted, fault, out, err, row', tip', log', id)
    ensures MergeDecides(mt, row, tip, branches, out, err, row', tip')
    ensures granted && fault == NoFault && Mergeable(mt, row, tip, branches) ==>
              out.promoted && err == None && row'.state == Promoted && Landed(row', tip')
  {
  }

  /** A validating row is reconciled first. */
  predicate ValidatingOutcome(row: Row, tip: Option<Commit>, log: seq<Landing>, granted: bool, fault: Fault,
                              out: Outcome, err: Option<Error>, row': Row, tip': Option<Commit>, log': seq<Landing>,
                              id: string)
  {
    if Landed(row, tip) then
      row' == row.(state := Promoted) && tip' == tip && log' == log && out == Outcome(Some(Promoted), true, tip, false)
        && err == None
    else LandOutcome(row, tip, log, granted, fault, out, err, row', tip', log', id)
  }

  /** Promote of a known id, by the state it finds. */
  predicate PromoteOutcome(mt: MergeTree, row: Row, tip: Option<Commit>, log: seq<Landing>,
                           branches: map<string, Commit>,
                           granted: bool, fault: Fault, out: Outcome, err: Option<Error>,
                           row': Row, tip': Option<Commit>, log': seq<Landing>, id: string)
  {
    match row.state
    case Promoted =>
      row' == row && tip' == tip && log' == log && out == Outcome(Some(Promoted), true, tip, false) && err == None
    case Aborted =>
      && row' == row && tip' == tip && log' == log
      && out == Outcome(Some(Aborted), false, None, false) && err == Some(AlreadyAborted)
    case Validating => ValidatingOutcome(row, tip, log, granted, fault, out, err, row', tip', log', id)
    case Received => ReceivedOutcome(mt, row, tip, log, branches, granted, fault, out, err, row', tip', log', id)
  }

  /** In every case a moved trunk was moved under the lease, from the recorded base to the recorded merge. */
  lemma PromoteFacts(mt: MergeTree, row: Row, tip: Option<Commit>, log: seq<Landing>, branches: map<string, Commit>,
                     granted: bool, fault: Fault, out: Outcome, err: Option<Error>,
                     row': Row, tip': Option<Commit>, log': seq<Landing>, id: string)
    requires PromoteOutcome(mt, row, tip, log, branches, granted, fault, out, err, row', tip', log', id)
    ensures tip' != tip ==> granted && row'.merge == tip' && row'.base == tip
    ensures err == None && out.promoted ==> row'.state == Promoted
  {
  }

  /** Between serialized calls a row says promoted if and only if it is terminal and its merge has landed. */
  lemma PromotedLanded(mt: MergeTree, t0: Option<Commit>, s: State, id: string)
    requires Inv(mt, t0, s) && Serial(s) && id in s.rows
    ensures s.rows[id].state == Promoted ==> Landed(s.rows[id], s.trunk)
    ensures s.rows[id].state.Terminal() ==> (s.rows[id].state == Promoted <==> Landed(s.rows[id], s.trunk))
    ensures s.rows[id].state == Received ==> !Landed(s.rows[id], s.trunk)
  {
  }

  /** The answer of an abort: only an integration found aborted already is reported without the tip. */
  function AbortAnswer(before: map<string, Row>, after: map<string, Row>, tip: Option<Commit>, id: string): Outcome {
    if id !in before || id !in after then NOTHING
    else if before[id].state == Aborted then Outcome(Some(Aborted), false, None, false)
    else Outcome(Some(after[id].state), after[id].state == Promoted, tip, false)
  }

  lemma AbortFacts(mt: MergeTree, t0: Option<Commit>, before: map<string, Row>, s: State, id: string)
    requires Inv(mt, t0, s) && Serial(s) && id in s.rows && s.rows == AbortedRows(before, s.trunk, id)
    ensures var out := AbortAnswer(before, s.rows, s.trunk, id);
            && s.rows[id].state.Terminal() && out.state == Some(s.rows[id].state)
            && (out.promoted <==> Landed(s.rows[id], s.trunk))
  {
    PromotedLanded(mt, t0, s, id);
  }

  class Integrator {
    const mt: MergeTree
    ghost const t0: Option<Commit>
    var rows: map<string, Row>
    var trunk: Option<Commit>
    var branches: map<string, Commit>
    ghost var log: seq<Landing>

    ghost function Abs(): State
      reads this
    {
      State(rows, trunk, branches, map[], log)
    }

    ghost predicate Valid()
      reads this
    {
      Inv(mt, t0, Abs()) && Serial(Abs()) && CleanBranches(Abs())
    }

    constructor (mt: MergeTree, trunk: Option<Commit>)
      ensures Valid() && rows == map[] && this.trunk == trunk && t0 == trunk && this.mt == mt
      ensures Initial(Abs(), t0)
    {
      this.mt := mt;
      this.t0 := trunk;
      this.trunk := trunk;
      rows, branches, log := map[], map[], [];
      new;
      InitialInv(mt, t0, Abs());
    }

    /** An agent pushes a branch; what it builds on has landed. */
    method Push(ref: string, target: Commit)
      requires Valid() && CleanSource(trunk, target)
      modifies this`branches
      ensures Valid() && branches == old(branches)[ref := target]
    {
      BranchesKeep(mt, t0, Abs(), branches[ref := target]);
      branches := branches[ref := target];
    }

    /** UPDATE integrations SET state = to WHERE id = id AND state = from. */
    method Cas(id: string, from: RowState, to: RowState) returns (ok: bool)
      modifies this`rows
      ensures ok <==> id in old(rows) && old(rows)[id].state == from
      ensures rows == if ok then old(rows)[id := old(rows)[id].(state := to)] else old(rows)
    {
      ok := id in rows && rows[id].state == from;
      if ok {
        rows := rows[id := rows[id].(state := to)];
      }
    }

    /** Submit records intent only; an id that already exists is left as it is. */
    method Submit(session: string, branch: string, id: string, now: int) returns (err: Option<Error>)
      requires Valid()
      modifies this`rows
      ensures Valid()
      ensures ValidRef(branch) ==> WholeCall(mt, old(Abs()), session, id, TrunkMachine.Submit(branch), Abs())
      ensures err == if ValidRef(branch) && branch in branches then None else Some(BadBranch)
      ensures rows == if err == None && id !in old(rows)
                      then old(rows)[id := Row(branch, session, trunk, None, Received, false, now)] else old(rows)
    {
      if !ValidRef(branch) {
        return Some(BadBranch);
      }
      ghost var d := Abs();
      ghost var s := Began(mt, d, session, id, TrunkMachine.Submit(branch));
      TickSubmit(mt, s, d, session, id, branch, now);
      if branch in branches {
        err := None;
        var base := trunk;
        if id !in rows {
          rows := rows[id := Row(branch, session, base, None, Received, false, now)];
        }
      } else {
        err := Some(BadBranch);
      }
      WholeCallKeeps(mt, t0, d, session, id, TrunkMachine.Submit(branch), Abs());
    }

    /** reconcileTerminal for a validating row: promote the row if its merge is in the trunk. */
    method Reconcile(session: string, id: string, rec: Row, promoting: bool, ghost s: State) returns (done: bool)
      requires id in rows && rows[id] == rec && rec.state == Validating
      requires CallRun(mt, s, Solo(Abs(), session, id, ReconcileTip(rec, promoting)))
      modifies this`rows
      ensures done <==> Landed(rec, trunk)
      ensures rows == if done then old(rows)[id := rec.(state := Promoted)] else old(rows)
      ensures CallRun(mt, s, if done || !promoting then Abs() else Solo(Abs(), session, id, AcquireLease))
    {
      ghost var d := Abs();
      TickReconcile(mt, s, d, session, id, rec, promoting);
      done := Landed(rec, trunk);
      if done {
        TickCas(mt, s, d, session, id, ReconcileCas(rec), Validating, Promoted);
        var _ := Cas(id, Validating, Promoted);
      }
    }

    /** received -> validating with base, merge and gate result in one statement; or the row's rejection. */
    method ValidateReceived(session: string, id: string, rec: Row, ghost s: State) returns (gate: GateResult)
      requires id in rows && rows[id] == rec && rec.state == Received
      requires CallRun(mt, s, Solo(Abs(), session, id, ReadTip(rec)))
      modifies this`rows
      ensures gate == GateOf(mt, trunk, branches, rec.branch)
      ensures id in rows && rows == old(rows)[id := rows[id]]
      ensures match gate
              case Pass(tree) =>
                && rows[id] == MarkValidating(rec, trunk, MergeFor(id, rec, trunk, branches[rec.branch], tree))
                && CallRun(mt, s, Solo(Abs(), session, id, AcquireLease))
              case Reject(_) => rows[id] == rec.(state := Aborted) && CallRun(mt, s, Abs())
              case GateError => rows[id] == rec && CallRun(mt, s, Abs())
      ensures gate.Pass? <==> Mergeable(mt, rec, trunk, branches)
      ensures gate.Pass? ==> Records(rows[id], trunk, branches[rec.branch], gate.tree)
      ensures gate.GateError? <==>
                rec.branch in branches && trunk.Some? && mt(trunk.value, branches[rec.branch]) == Failed
    {
      ghost var d := Abs();
      TickGate(mt, s, d, session, id, rec);
      var tip := trunk;
      if rec.branch !in branches {
        gate := Reject("");
        TickCas(mt, s, d, session, id, RejectCas(rec), Received, Aborted);
        var _ := Cas(id, Received, Aborted);
        return;
      }
      var source := branches[rec.branch];
      gate := Validate(mt, tip, source);
      match gate
      case GateError =>
      case Reject(_) =>
        TickCas(mt, s, d, session, id, RejectCas(rec), Received, Aborted);
        var _ := Cas(id, Received, Aborted);
      case Pass(tree) =>
        var made := CommitMerge(tree, tip, source, MergeMessage(id, rec.branch), rec.createdAt);
        TickRecord(mt, s, d, session, id, rec, source, tree);
        rows := rows[id := rows[id].(state := Validating, base := tip, merge := Some(made), gateOK := true)];
    }

    /**
     From the lease to the return: reload, test ancestry, compare the tip, move the ref, mark the
     row. The lease is refused when granted is false; a fault cuts the call off where it is named.
     */
    method LandUnderLease(session: string, id: string, granted: bool, fault: Fault, ghost s: State)
      returns (out: Outcome, err: Option<Error>)
      requires id in rows && rows[id].state == Validating && rows[id].merge.Some?
      requires CallRun(mt, s, Solo(Abs(), session, id, AcquireLease))
      modifies this`rows, this`trunk, this`log
      ensures CallRun(mt, s, Abs())
      ensures id in rows && rows == old(rows)[id := rows[id]]
      ensures LandOutcome(old(rows)[id], old(trunk), old(log), granted, fault, out, err, rows[id], trunk, log, id)
    {
      ghost var d := Abs();
      TickLease(mt, s, d, session, id, granted);
      if !granted {
        return Outcome(Some(Validating), false, None, true), None;
      }
      if fault == AfterLease {
        DiesHere(mt, s, d, session, id, Reload);
        return Outcome(Some(Validating), false, None, false), Some(Died);
      }
      var rec := rows[id];
      TickReload(mt, s, d, session, id);
      if Landed(rec, trunk) {
        TickCas(mt, s, d, session, id, LandedCas(rec), Validating, Promoted);
        var _ := Cas(id, Validating, Promoted);
        return Outcome(Some(Promoted), true, trunk, false), None;
      }
      out, err := CompareAndAdvance(session, id, rec, fault, s);
    }

    /** The tip is read again, and the ref moves only from the recorded base. */
    method CompareAndAdvance(session: string, id: string, rec: Row, fault: Fault, ghost s: State)
      returns (out: Outcome, err: Option<Error>)
      requires id in rows && rows[id] == rec && rec.state == Validating && rec.merge.Some?
      requires CallRun(mt, s, Solo(Abs(), session, id, NowTip(rec)))
      requires fault != AfterLease && !Landed(rec, trunk)
      modifies this`rows, this`trunk, this`log
      ensures CallRun(mt, s, Abs())
      ensures id in rows && rows == old(rows)[id := rows[id]]
      ensures LandOutcome(rec, old(trunk), old(log), true, fault, out, err, rows[id], trunk, log, id)
    {
      ghost var d := Abs();
      TickNowTip(mt, s, d, session, id, rec);
      if trunk != rec.base {
        TickCas(mt, s, d, session, id, StaleCas(rec), Validating, Aborted);
        var _ := Cas(id, Validating, Aborted);
        return Outcome(Some(Aborted), false, None, true), None;
      }
      if fault == BeforeUpdateRef {
        DiesHere(mt, s, d, session, id, UpdateRef(rec));
        return Outcome(Some(Validating), false, None, false), Some(Died);
      }
      TickUpdateRef(mt, s, d, session, id, rec);
      log := log + [Land(id, rec.base, rec.merge.value)];
      trunk := rec.merge;
      ghost var e := Abs();
      if fault == AfterUpdateRef {
        DiesHere(mt, s, e, session, id, FinalCas(rec));
        return Outcome(Some(Validating), true, trunk, false), Some(Died);
      }
      TickCas(mt, s, e, session, id, FinalCas(rec), Validating, Promoted);
      var _ := Cas(id, Validating, Promoted);
      return Outcome(Some(Promoted), true, trunk, false), None;
    }

    method PromoteValidating(session: string, id: string, granted: bool, fault: Fault, ghost s: State)
      returns (out: Outcome, err: Option<Error>)
      requires id in rows && rows[id].state == Validating && rows[id].merge.Some?
      requires CallRun(mt, s, Solo(Abs(), session, id, ReconcileTip(rows[id], true)))
      modifies this`rows, this`trunk, this`log
      ensures CallRun(mt, s, Abs())
      ensures id in rows && rows == old(rows)[id := rows[id]]
      ensures ValidatingOutcome(old(rows)[id], old(trunk), old(log), granted, fault, out, err, rows[id], trunk, log, id)
    {
      var rec := rows[id];
      var done := Reconcile(session, id, rec, true, s);
      if done {
        out, err := Outcome(Some(Promoted), true, trunk, false), None;
      } else {
        out, err := LandUnderLease(session, id, granted, fault, s);
      }
    }

    method PromoteGated(session: string, id: string, granted: bool, fault: Fault, ghost s: State)
      returns (out: Outcome, err: Option<Error>)
      requires id in rows && rows[id].state == Validating && rows[id].merge.Some?
      requires CallRun(mt, s, Solo(Abs(), session, id, AcquireLease))
      modifies this`rows, this`trunk, this`log
      ensures CallRun(mt, s, Abs())
      ensures id in rows && rows == old(rows)[id := rows[id]]
      ensures GatedOutcome(old(rows)[id], old(trunk), old(log), granted, fault, out, err, rows[id], trunk, log, id)
    {
      if fault == AfterValidating {
        DiesHere(mt, s, Abs(), session, id, AcquireLease);
        out, err := Outcome(Some(Validating), false, None, false), Some(Died);
      } else {
        out, err := LandUnderLease(session, id, granted, fault, s);
      }
    }

    method PromoteReceived(session: string, id: string, granted: bool, fault: Fault, ghost s: State)
      returns (out: Outcome, err: Option<Error>)
      requires id in rows && rows[id].state == Received
      requires CallRun(mt, s, Solo(Abs(), session, id, ReadTip(rows[id])))
      modifies this`rows, this`trunk, this`log
      ensures CallRun(mt, s, Abs())
      ensures id in rows && rows == old(rows)[id := rows[id]]
      ensures ReceivedOutcome(mt, old(rows)[id], old(trunk), old(log), branches, granted, fault, out, err,
                              rows[id], trunk, log, id)
    {
      var rec := rows[id];
      var gate := ValidateReceived(session, id, rec, s);
      match gate
      case GateError => out, err := NOTHING, Some(GitFailed);
      case Reject(_) => out, err := Outcome(Some(Aborted), false, None, false), None;
      case Pass(_) => out, err := PromoteGated(session, id, granted, fault, s);
    }

    method PromoteBody(session: string, id: string, granted: bool, fault: Fault, ghost s: State)
      returns (out: Outcome, err: Option<Error>)
      requires id in rows && rows[id].state == Validating ==> rows[id].merge.Some?
      requires CallRun(mt, s, Solo(Abs(), session, id, PromoteGet))
      modifies this`rows, this`trunk, this`log
      ensures CallRun(mt, s, Abs())
      ensures id !in old(rows) ==> err == Some(NotFound) && Abs() == old(Abs())
      ensures id in old(rows) ==>
                && id in rows && rows == old(rows)[id := rows[id]]
                && PromoteOutcome(mt, old(rows)[id], old(trunk), old(log), branches, granted, fault, out, err,
                                  rows[id], trunk, log, id)
    {
      TickFirstRead(mt, s, Abs(), session, id, PromoteGet);
      if id !in rows {
        out, err := NOTHING, Some(NotFound);
      } else if rows[id].state == Promoted {
        out, err := Outcome(Some(Promoted), true, trunk, false), None;
      } else if rows[id].state == Aborted {
        out, err := Outcome(Some(Aborted), false, None, false), Some(AlreadyAborted);
      } else if rows[id].state == Validating {
        out, err := PromoteValidating(session, id, granted, fault, s);
      } else {
        out, err := PromoteReceived(session, id, granted, fault, s);
      }
    }

    /** Promote: reconcile, validate if received, then land under the lease. */
    method Promote(session: string, id: string, granted: bool, fault: Fault)
      returns (out: Outcome, err: Option<Error>)
      requires Valid()
      modifies this`rows, this`trunk, this`log
      ensures Valid() && WholeCall(mt, old(Abs()), session, id, TrunkMachine.Promote, Abs())
      ensures id !in old(rows) ==> err == Some(NotFound) && Abs() == old(Abs())
      ensures id in old(rows) ==>
                && id in rows && rows == old(rows)[id := rows[id]]
                && PromoteOutcome(mt, old(rows)[id], old(trunk), old(log), branches, granted, fault, out, err,
                                  rows[id], trunk, log, id)
      ensures id in old(rows) && old(rows)[id].state == Received ==>
                MergeDecides(mt, old(rows)[id], old(trunk), branches, out, err, rows[id], trunk)
      ensures granted && fault == NoFault && id in old(rows) && old(rows)[id].state == Received ==>
                (Mergeable(mt, old(rows)[id], old(trunk), branches) ==> out.promoted)
      ensures err == None && out.promoted ==> id in rows && rows[id].state == Promoted && Landed(rows[id], trunk)
      ensures trunk != old(trunk) ==> granted && id in rows && rows[id].merge == trunk && rows[id].base == old(trunk)
    {
      ghost var d := Abs();
      ghost var s := Began(mt, d, session, id, TrunkMachine.Promote);
      assert id in rows && rows[id].state == Validating ==> rows[id].merge.Some? by {
        assert RowsInv(mt, d);
      }
      out, err := PromoteBody(session, id, granted, fault, s);
      WholeCallKeeps(mt, t0, d, session, id, TrunkMachine.Promote, Abs());
      if id in d.rows {
        PromoteFacts(mt, d.rows[id], d.trunk, d.log, branches, granted, fault, out, err, rows[id], trunk, log, id);
        PromotedLanded(mt, t0, Abs(), id);
        if d.rows[id].state == Received {
          ReceivedFacts(mt, d.rows[id], d.trunk, d.log, branches, granted, fault, out, err, rows[id], trunk, log, id);
        }
      }
    }

    /** Abort never moves the ref; a merge that already landed is promoted instead. */
    method Abort(session: string, id: string) returns (out: Outcome)
      requires Valid()
      modifies this`rows
      ensures Valid() && WholeCall(mt, old(Abs()), session, id, TrunkMachine.Abort, Abs())
      ensures rows == AbortedRows(old(rows), trunk, id)
      ensures out == AbortAnswer(old(rows), rows, trunk, id)
      ensures id in rows ==> out.state == Some(rows[id].state) && rows[id].state.Terminal()
                             && (out.promoted <==> Landed(rows[id], trunk))
    {
      ghost var d := Abs();
      ghost var s := Began(mt, d, session, id, TrunkMachine.Abort);
      TickAbort(mt, s, d, session, id);
      out := AbortBody(id);
      WholeCallKeeps(mt, t0, d, session, id, TrunkMachine.Abort, Abs());
      if id in rows {
        AbortFacts(mt, t0, d.rows, Abs(), id);
      }
    }

    method AbortBody(id: string) returns (out: Outcome)
      modifies this`rows
      ensures rows == AbortedRows(old(rows), trunk, id)
      ensures out == AbortAnswer(old(rows), rows, trunk, id)
    {
      if id !in rows {
        return NOTHING;
      }
      var rec := rows[id];
      if rec.state == Aborted {
        return Outcome(Some(Aborted), false, None, false);
      }
      if rec.state != Promoted {
        if Landed(rec, trunk) {
          var _ := Cas(id, rec.state, Promoted);
        } else {
          var _ := Cas(id, rec.state, Aborted);
        }
      }
      out := Outcome(Some(rows[id].state), rows[id].state == Promoted, trunk, false);
    }

    /** The holder-bound abort: somebody else's live integration is refused, everything else is Abort. */
    method AbortAs(session: string, id: string) returns (out: Outcome, err: Option<Error>)
      requires Valid()
      modifies this`rows
      ensures Valid() && WholeCall(mt, old(Abs()), session, id, TrunkMachine.AbortAs, Abs())
      ensures err == if id in old(rows) && !old(rows)[id].state.Terminal() && !Landed(old(rows)[id], trunk)
                        && old(rows)[id].holder != session then Some(Unauthorized) else None
      ensures rows == if err == None then AbortedRows(old(rows), trunk, id) else old(rows)
      ensures err == None ==> out == AbortAnswer(old(rows), rows, trunk, id)
      ensures err != None ==> out == Outcome(Some(rows[id].state), false, None, false)
      ensures err == None && id in rows ==> rows[id].state.Terminal() && (out.promoted <==> Landed(rows[id], trunk))
    {
      ghost var d := Abs();
      ghost var s := Began(mt, d, session, id, TrunkMachine.AbortAs);
      TickAbortAs(mt, s, d, session, id);
      if id !in rows {
        return NOTHING, None;
      }
      var rec := rows[id];
      if rec.state.Terminal() || Landed(rec, trunk) || rec.holder == session {
        TickAbort(mt, s, d, session, id);
        err := None;
        out := AbortBody(id);
      } else {
        out, err := Outcome(Some(rec.state), false, None, false), Some(Unauthorized);
      }
      WholeCallKeeps(mt, t0, d, session, id, TrunkMachine.AbortAs, Abs());
      if id in rows && err == None {
        AbortFacts(mt, t0, d.rows, Abs(), id);
      }
    }

    /** Status reports the reconciled state and records a landing it finds. */
    method Status(session: string, id: string) returns (out: Outcome, err: Option<Error>)
      requires Valid()
      modifies this`rows
      ensures Valid() && WholeCall(mt, old(Abs()), session, id, TrunkMachine.Status, Abs())
      ensures err == if id in rows then None else Some(NotFound)
      ensures rows == if id in old(rows) && old(rows)[id].state == Validating && Landed(old(rows)[id], trunk)
                      then old(rows)[id := old(rows)[id].(state := Promoted)] else old(rows)
      ensures id in rows ==> out.state == Some(rows[id].state) && (out.promoted <==> Landed(rows[id], trunk))
      ensures out == if id !in rows then NOTHING
                     else if rows[id].state == Aborted then Outcome(Some(Aborted), false, None, false)
                     else Outcome(Some(rows[id].state), rows[id].state == Promoted, trunk, false)
    {
      ghost var d := Abs();
      ghost var s := Began(mt, d, session, id, TrunkMachine.Status);
      TickFirstRead(mt, s, d, session, id, StatusGet);
      out, err := NOTHING, Some(NotFound);
      if id in rows {
        var rec := rows[id];
        err := None;
        if rec.state == Validating {
          var done := Reconcile(session, id, rec, false, s);
        }
        if rec.state == Aborted {
          out := Outcome(Some(Aborted), false, None, false);
        } else {
          out := Outcome(Some(rows[id].state), rows[id].state == Promoted, trunk, false);
        }
      }
      WholeCallKeeps(mt, t0, d, session, id, TrunkMachine.Status, Abs());
      if id in rows {
        PromotedLanded(mt, t0, Abs(), id);
      }
    }
  }
}
