/**
 What serialized calls keep, though each may die at any statement: rows and ref agree. The
 agents are assumed not to build branches on merges that never landed.
 */
module TrunkSerial {
  import opened Basics
  import opened Git
  import opened TrunkMachine
  import opened TrunkSafety

  // ---- branches without unlanded merges ----------------------------------------

  /** Integration commits an agent's branch builds on have already landed: agents fetch refs, not dangling objects. */
  ghost predicate CleanSource(trunk: Option<Commit>, b: Commit) {
    forall c: Commit {:trigger Ancestor(c, b)} :: Ancestor(c, b) && IsIntegration(c) ==> InHistory(c, trunk)
  }

  ghost predicate CleanMerge(trunk: Option<Commit>, m: Commit) {
    m.parents != [] && CleanSource(trunk, Last(m.parents))
  }

  ghost predicate CleanPc(trunk: Option<Commit>, pc: Pc) {
    && (pc.RunGate? || pc.WriteCommit? ==> CleanSource(trunk, pc.source))
    && (pc.SetValidating? ==> CleanMerge(trunk, pc.made))
  }

  ghost predicate CleanBranches(s: State) {
    && (forall ref | ref in s.branches :: CleanSource(s.trunk, s.branches[ref]))
    && (forall c | c in s.calls :: CleanPc(s.trunk, s.calls[c].pc))
    && (forall id | id in s.rows && s.rows[id].merge.Some? :: CleanMerge(s.trunk, s.rows[id].merge.value))
  }

  ghost predicate CleanLabel(s: State, l: Label) {
    l.SetBranch? ==> CleanSource(s.trunk, l.target)
  }

  lemma CleanSourceKept(before: Option<Commit>, after: Option<Commit>, b: Commit)
    requires CleanSource(before, b) && HistoryKept(before, after)
    ensures CleanSource(after, b)
  {
    forall c: Commit | Ancestor(c, b) && IsIntegration(c) ensures InHistory(c, after) {
      InHistoryKept(c, before, after);
    }
  }

  lemma CleanKeptByHistory(s: State, trunk: Option<Commit>)
    requires CleanBranches(s) && HistoryKept(s.trunk, trunk)
    ensures forall ref | ref in s.branches :: CleanSource(trunk, s.branches[ref])
    ensures forall c | c in s.calls :: CleanPc(trunk, s.calls[c].pc)
    ensures forall id | id in s.rows && s.rows[id].merge.Some? :: CleanMerge(trunk, s.rows[id].merge.value)
  {
    forall ref | ref in s.branches ensures CleanSource(trunk, s.branches[ref]) {
      CleanSourceKept(s.trunk, trunk, s.branches[ref]);
    }
    forall c | c in s.calls ensures CleanPc(trunk, s.calls[c].pc) {
      var pc := s.calls[c].pc;
      if pc.RunGate? || pc.WriteCommit? { CleanSourceKept(s.trunk, trunk, pc.source); }
      if pc.SetValidating? { CleanSourceKept(s.trunk, trunk, Last(pc.made.parents)); }
    }
    forall id | id in s.rows && s.rows[id].merge.Some? ensures CleanMerge(trunk, s.rows[id].merge.value) {
      CleanSourceKept(s.trunk, trunk, Last(s.rows[id].merge.value.parents));
    }
  }

  predicate HoldsSource(pc: Pc) {
    pc.RunGate? || pc.WriteCommit? || pc.SetValidating?
  }

  lemma EarlyPhases(s: State, c: nat, ok: bool, now: int)
    requires c in s.calls
    ensures s.calls[c].pc.Submitting() ==> var t := SubmitStep(s, c, now); c in t.calls ==> !HoldsSource(t.calls[c].pc)
    ensures s.calls[c].pc.Reconciling() ==>
              var t := ReconcileStep(s, c, ok); c in t.calls ==> !HoldsSource(t.calls[c].pc)
  {
  }

  lemma LatePhases(s: State, c: nat, ok: bool)
    requires c in s.calls
    ensures s.calls[c].pc.Landing() ==> var t := LandStep(s, c, ok); c in t.calls ==> !HoldsSource(t.calls[c].pc)
    ensures s.calls[c].pc.Aborting() ==> var t := AbortStep(s, c, ok); c in t.calls ==> !HoldsSource(t.calls[c].pc)
  {
  }

  /** Sources and fresh merges are held in the validating phase only. */
  lemma OtherPhases(mt: MergeTree, s: State, c: nat, ok: bool, now: int)
    requires c in s.calls && !s.calls[c].pc.ValidatingPhase() && c in Advance(mt, s, c, ok, now).calls
    ensures !HoldsSource(Advance(mt, s, c, ok, now).calls[c].pc)
  {
    EarlyPhases(s, c, ok, now);
    LatePhases(s, c, ok);
  }

  /** The next pc of a call holds a clean source if the present one does. */
  lemma CleanNextPc(mt: MergeTree, s: State, c: nat, ok: bool, now: int)
    requires CleanBranches(s) && c in s.calls && c in Advance(mt, s, c, ok, now).calls
    ensures CleanPc(s.trunk, Advance(mt, s, c, ok, now).calls[c].pc)
  {
    if s.calls[c].pc.ValidatingPhase() {
      CleanValidatePc(mt, s, c);
    } else {
      OtherPhases(mt, s, c, ok, now);
    }
  }

  lemma CleanValidatePc(mt: MergeTree, s: State, c: nat)
    requires CleanBranches(s) && c in s.calls && s.calls[c].pc.ValidatingPhase() && c in ValidateStep(mt, s, c).calls
    ensures CleanPc(s.trunk, ValidateStep(mt, s, c).calls[c].pc)
  {
    var pc := s.calls[c].pc;
    assert CleanPc(s.trunk, pc);
    if pc.WriteCommit? {
      assert Last(MergeFor(s.calls[c].id, pc.rec, pc.tip, pc.source, pc.tree).parents) == pc.source;
    }
  }

  /** A row's merge is set by SetValidating and by nothing else. */
  lemma MergeSetOnce(mt: MergeTree, s: State, c: nat, ok: bool, now: int, id: string)
    requires c in s.calls && id in Advance(mt, s, c, ok, now).rows
    ensures var t, pc := Advance(mt, s, c, ok, now), s.calls[c].pc;
            t.rows[id].merge == (if id in s.rows then s.rows[id].merge else None)
              || (pc.SetValidating? && t.rows[id].merge == Some(pc.made))
  {
  }

  lemma CleanNextRow(mt: MergeTree, s: State, c: nat, ok: bool, now: int, id: string)
    requires CleanBranches(s) && c in s.calls && id in Advance(mt, s, c, ok, now).rows
    requires Advance(mt, s, c, ok, now).rows[id].merge.Some?
    ensures CleanMerge(s.trunk, Advance(mt, s, c, ok, now).rows[id].merge.value)
  {
    MergeSetOnce(mt, s, c, ok, now, id);
    assert CleanPc(s.trunk, s.calls[c].pc);
  }

  /** A tick moves its own call and no other, and no branch. */
  predicate OwnCallOnly(s: State, t: State, c: nat) {
    && t.branches == s.branches
    && (forall d | d in t.calls :: d in s.calls && t.calls[d].id == s.calls[d].id
         && (d != c ==> t.calls[d] == s.calls[d]))
  }

  lemma EarlyOwnCallOnly(s: State, c: nat, ok: bool, now: int)
    requires c in s.calls
    ensures s.calls[c].pc.Submitting() ==> OwnCallOnly(s, SubmitStep(s, c, now), c)
    ensures s.calls[c].pc.Reconciling() ==> OwnCallOnly(s, ReconcileStep(s, c, ok), c)
  {
  }

  lemma ValidateOwnCallOnly(mt: MergeTree, s: State, c: nat)
    requires c in s.calls
    ensures s.calls[c].pc.ValidatingPhase() ==> OwnCallOnly(s, ValidateStep(mt, s, c), c)
  {
  }

  lemma LandOwnCallOnly(s: State, c: nat, ok: bool)
    requires c in s.calls
    ensures s.calls[c].pc.Landing() ==> OwnCallOnly(s, LandStep(s, c, ok), c)
  {
  }

  lemma AbortOwnCallOnly(s: State, c: nat, ok: bool)
    requires c in s.calls
    ensures s.calls[c].pc.Aborting() ==> OwnCallOnly(s, AbortStep(s, c, ok), c)
  {
  }

  lemma TickOwnCallOnly(mt: MergeTree, s: State, c: nat, ok: bool, now: int)
    requires c in s.calls
    ensures OwnCallOnly(s, Advance(mt, s, c, ok, now), c)
  {
    EarlyOwnCallOnly(s, c, ok, now);
    ValidateOwnCallOnly(mt, s, c);
    LandOwnCallOnly(s, c, ok);
    AbortOwnCallOnly(s, c, ok);
  }

  lemma CleanAdvance(mt: MergeTree, s: State, c: nat, ok: bool, now: int)
    requires CleanBranches(s) && c in s.calls && Advance(mt, s, c, ok, now).trunk == s.trunk
    ensures CleanBranches(Advance(mt, s, c, ok, now))
  {
    var t := Advance(mt, s, c, ok, now);
    TickOwnCallOnly(mt, s, c, ok, now);
    forall d | d in t.calls ensures CleanPc(t.trunk, t.calls[d].pc) {
      if d == c { CleanNextPc(mt, s, c, ok, now); }
    }
    forall id | id in t.rows && t.rows[id].merge.Some? ensures CleanMerge(t.trunk, t.rows[id].merge.value) {
      CleanNextRow(mt, s, c, ok, now, id);
    }
  }

  /** New branch commits enter only through SetBranch, and a merge is clean because its source was. */
  lemma CleanStep(mt: MergeTree, s: State, l: Label)
    requires CleanBranches(s) && CleanLabel(s, l) && Step(mt, s, l).trunk == s.trunk
    ensures CleanBranches(Step(mt, s, l))
  {
    if l.Tick? && l.call in s.calls {
      CleanAdvance(mt, s, l.call, l.ok, l.now);
    }
  }

  lemma CleanMove(mt: MergeTree, s: State, l: Label)
    requires CleanBranches(s) && Step(mt, s, l).trunk != s.trunk && HistoryKept(s.trunk, Step(mt, s, l).trunk)
    ensures CleanBranches(Step(mt, s, l))
  {
    OnlyUpdateRefMoves(mt, s, l);
    CleanKeptByHistory(s, Step(mt, s, l).trunk);
  }

  /** An advance brings one integration commit into the trunk: the one that lands. */
  lemma OnlyItselfLands(trunk: Option<Commit>, m: Commit, c: Commit)
    requires CleanMerge(trunk, m)
    requires m.parents == (if trunk.Some? then [trunk.value] else []) + [Last(m.parents)]
    requires IsIntegration(c) && Ancestor(c, m) && c != m
    ensures InHistory(c, trunk)
  {
    var i :| 0 <= i < |m.parents| && Ancestor(c, m.parents[i]);
    if i == |m.parents| - 1 {
      assert Ancestor(c, Last(m.parents));
    }
  }

  /** Merges of different integrations are different commits. */
  lemma MergesDiffer(mt: MergeTree, trunk: Option<Commit>, id1: string, row1: Row, id2: string, row2: Row)
    requires RowInv(mt, trunk, id1, row1) && RowInv(mt, trunk, id2, row2) && row1.merge.Some? && row2.merge.Some?
    ensures IsIntegration(row1.merge.value)
    ensures id1 != id2 ==> row1.merge != row2.merge
  {
    MergeMessageInjective(id1, row1.branch, id2, row2.branch);
  }

  /** What the trunk moves to: the recorded merge of the row whose call moves it. */
  lemma MoverFacts(mt: MergeTree, t0: Option<Commit>, s: State, l: Label, id: string)
    requires Inv(mt, t0, s) && CleanBranches(s) && Step(mt, s, l).trunk != s.trunk && id in s.rows
              && s.rows[id].merge.Some?
    ensures l.Tick? && l.call in s.calls && Step(mt, s, l).trunk.Some?
    ensures var m := Step(mt, s, l).trunk.value;
            && CleanMerge(s.trunk, m)
            && m.parents == (if s.trunk.Some? then [s.trunk.value] else []) + [Last(m.parents)]
            && IsIntegration(s.rows[id].merge.value)
            && (s.calls[l.call].id != id ==> m != s.rows[id].merge.value)
  {
    OnlyUpdateRefMoves(mt, s, l);
    var mover := MoveIsRecorded(mt, t0, s, l);
    assert Last(Step(mt, s, l).log).id == mover == s.calls[l.call].id;
    assert RowInv(mt, s.trunk, id, s.rows[id]) && RowInv(mt, s.trunk, mover, s.rows[mover]);
    MergesDiffer(mt, s.trunk, id, s.rows[id], mover, s.rows[mover]);
  }

  /** A row left out of the trunk stays out when another integration lands. */
  lemma OthersStayOut(mt: MergeTree, t0: Option<Commit>, s: State, l: Label, id: string)
    requires Inv(mt, t0, s) && CleanBranches(s) && Step(mt, s, l).trunk != s.trunk && l.Tick? && l.call in s.calls
    requires id in s.rows && !Landed(s.rows[id], s.trunk) && s.calls[l.call].id != id
    ensures !Landed(s.rows[id], Step(mt, s, l).trunk)
  {
    if s.rows[id].merge.Some? {
      MoverFacts(mt, t0, s, l, id);
      var m, c := Step(mt, s, l).trunk.value, s.rows[id].merge.value;
      if Ancestor(c, m) {
        OnlyItselfLands(s.trunk, m, c);
      }
    }
  }

  // ---- schedules of a clean environment ---------------------------------------------

  /** The environment keeps its side of the agreement all along the schedule. */
  ghost predicate CleanRun(mt: MergeTree, s: State, ls: seq<Label>) {
    forall k | 0 <= k < |ls| :: CleanLabel(Run(mt, s, ls[..k]), ls[k])
  }

  lemma CleanRunFront(mt: MergeTree, s: State, ls: seq<Label>)
    requires CleanRun(mt, s, ls) && ls != []
    ensures CleanRun(mt, s, Front(ls)) && CleanLabel(Run(mt, s, Front(ls)), Last(ls))
  {
    forall k | 0 <= k < |Front(ls)| ensures CleanLabel(Run(mt, s, Front(ls)[..k]), Front(ls)[k]) {
      assert Front(ls)[..k] == ls[..k];
    }
    assert ls[..|ls| - 1] == Front(ls);
  }

  // ---- serialized calls ------------------------------------------------------------

  predicate SerialLabel(s: State, l: Label) {
    l.Begin? ==> s.calls == map[]
  }

  /** What the only live call knows, with nobody to overtake it. */
  predicate SerialCall(s: State, id: string, pc: Pc) {
    && (pc.HasRec() ==> id in s.rows && pc.rec == s.rows[id])
    && (pc.Landing() || pc.Reget? ==> id in s.rows && s.rows[id].state == Validating)
    && (pc.ValidatingPhase() && !pc.Reget? ==> s.rows[id].state == Received)
    && (pc.NowTip? || pc.StaleCas? || pc.UpdateRef? || (pc.AbortCas? && pc.to == Aborted) ==> !Landed(pc.rec, s.trunk))
  }

  /** Cached rows and the ref agree. */
  predicate Agree(s: State) {
    forall id | id in s.rows ::
      && (s.rows[id].state == Promoted ==> Landed(s.rows[id], s.trunk))
      && (s.rows[id].state == Aborted ==> !Landed(s.rows[id], s.trunk))
      && (s.rows[id].state == Received ==> s.rows[id].merge == None)
  }

  predicate Serial(s: State) {
    && Agree(s)
    && (forall c, d | c in s.calls && d in s.calls :: c == d)
    && (forall c | c in s.calls :: SerialCall(s, s.calls[c].id, s.calls[c].pc))
  }

  lemma SerialGoto(s: State, c: nat, pc: Pc)
    requires Serial(s) && c in s.calls && SerialCall(s, s.calls[c].id, pc)
    ensures Serial(Goto(s, c, pc))
  {
    assert forall d | d in Goto(s, c, pc).calls :: d == c;
  }

  lemma SerialEnd(s: State, c: nat)
    requires Serial(s) && c in s.calls
    ensures Serial(End(s, c))
  {
    assert forall d | d in s.calls :: d == c;
  }

  lemma SerialWrite(s: State, c: nat, row: Row)
    requires Serial(s) && c in s.calls
    requires (row.state == Promoted ==> Landed(row, s.trunk)) && (row.state == Aborted ==> !Landed(row, s.trunk))
    requires row.state == Received ==> row.merge == None
    ensures Serial(End(WriteRow(s, s.calls[c].id, row), c))
  {
    assert forall d | d in s.calls :: d == c;
  }

  lemma SerialCas(s: State, c: nat, from: RowState, to: RowState)
    requires Serial(s) && c in s.calls && to.Terminal()
    requires var id := s.calls[c].id; id in s.rows && s.rows[id].state == from ==>
               (to == Promoted <==> Landed(s.rows[id], s.trunk))
    ensures Serial(CasEnd(s, c, from, to))
  {
    var id := s.calls[c].id;
    if id in s.rows && s.rows[id].state == from {
      SerialWrite(s, c, s.rows[id].(state := to));
    } else {
      SerialEnd(s, c);
    }
  }

  lemma SerialReconcile(mt: MergeTree, s: State, c: nat, ok: bool)
    requires Serial(s) && c in s.calls && s.calls[c].pc.Reconciling() && CallInv(mt, s, s.calls[c].id, s.calls[c].pc)
    ensures Serial(ReconcileStep(s, c, ok))
  {
    var id, pc := s.calls[c].id, s.calls[c].pc;
    assert SerialCall(s, id, pc);
    var t := ReconcileStep(s, c, ok);
    if pc.ReconcileCas? {
      SerialCas(s, c, Validating, Promoted);
    } else if c in t.calls {
      SerialGoto(s, c, t.calls[c].pc);
    } else {
      SerialEnd(s, c);
    }
  }

  lemma SerialSetValidating(s: State, c: nat)
    requires Serial(s) && c in s.calls && s.calls[c].pc.SetValidating?
    ensures var id, pc := s.calls[c].id, s.calls[c].pc;
            && id in s.rows && s.rows[id].state == Received
            && Serial(Goto(WriteRow(s, id, MarkValidating(s.rows[id], pc.tip, pc.made)), c, AcquireLease))
  {
    assert SerialCall(s, s.calls[c].id, s.calls[c].pc);
    assert forall d | d in s.calls :: d == c;
  }

  lemma SerialValidate(mt: MergeTree, s: State, c: nat)
    requires Serial(s) && c in s.calls && s.calls[c].pc.ValidatingPhase()
    ensures Serial(ValidateStep(mt, s, c))
  {
    var id, pc := s.calls[c].id, s.calls[c].pc;
    assert SerialCall(s, id, pc);
    var t := ValidateStep(mt, s, c);
    if pc.RejectCas? {
      SerialCas(s, c, Received, Aborted);
    } else if pc.SetValidating? {
      SerialSetValidating(s, c);
    } else if c in t.calls {
      SerialGoto(s, c, t.calls[c].pc);
    } else {
      SerialEnd(s, c);
    }
  }

  /** The checks under the lease. */
  lemma SerialChecks(mt: MergeTree, s: State, c: nat, ok: bool)
    requires Serial(s) && c in s.calls && CallInv(mt, s, s.calls[c].id, s.calls[c].pc)
    requires var pc := s.calls[c].pc; pc.AcquireLease? || pc.Reload? || pc.LandedTip? || pc.NowTip?
    ensures Serial(LandStep(s, c, ok))
  {
    assert SerialCall(s, s.calls[c].id, s.calls[c].pc);
    var t := LandStep(s, c, ok);
    if c in t.calls {
      SerialGoto(s, c, t.calls[c].pc);
    } else {
      SerialEnd(s, c);
    }
  }

  lemma SerialLand(mt: MergeTree, s: State, c: nat, ok: bool)
    requires Serial(s) && c in s.calls && s.calls[c].pc.Landing() && CallInv(mt, s, s.calls[c].id, s.calls[c].pc)
    requires LandStep(s, c, ok).trunk == s.trunk && LandStep(s, c, ok).log == s.log
    ensures Serial(LandStep(s, c, ok))
  {
    var id, pc := s.calls[c].id, s.calls[c].pc;
    assert SerialCall(s, id, pc);
    if pc.LandedCas? || pc.FinalCas? {
      SerialCas(s, c, Validating, Promoted);
    } else if pc.StaleCas? {
      SerialCas(s, c, Validating, Aborted);
    } else if pc.UpdateRef? {
      SerialEnd(s, c);
    } else {
      SerialChecks(mt, s, c, ok);
    }
  }

  lemma SerialAbort(mt: MergeTree, s: State, c: nat, ok: bool)
    requires Serial(s) && c in s.calls && s.calls[c].pc.Aborting() && CallInv(mt, s, s.calls[c].id, s.calls[c].pc)
    ensures Serial(AbortStep(s, c, ok))
  {
    var id, pc := s.calls[c].id, s.calls[c].pc;
    assert SerialCall(s, id, pc);
    var t := AbortStep(s, c, ok);
    if pc.AbortCas? {
      SerialCas(s, c, pc.rec.state, pc.to);
    } else if c in t.calls {
      SerialGoto(s, c, t.calls[c].pc);
    } else {
      SerialEnd(s, c);
    }
  }

  lemma SerialSubmit(s: State, c: nat, now: int)
    requires Serial(s) && c in s.calls && s.calls[c].pc.Submitting()
    ensures Serial(SubmitStep(s, c, now))
  {
    var id, pc := s.calls[c].id, s.calls[c].pc;
    var t := SubmitStep(s, c, now);
    if pc.SubmitInsert? && id !in s.rows {
      SerialWrite(s, c, Row(pc.ref, s.calls[c].session, pc.base, None, Received, false, now));
    } else if c in t.calls {
      SerialGoto(s, c, t.calls[c].pc);
    } else {
      SerialEnd(s, c);
    }
  }

  lemma MovedAgree(mt: MergeTree, t0: Option<Commit>, s: State, l: Label, id: string)
    requires Inv(mt, t0, s) && Serial(s) && CleanBranches(s) && Step(mt, s, l).trunk != s.trunk && id in s.rows
    requires l.Tick? && l.call in s.calls && SerialCall(s, s.calls[l.call].id, s.calls[l.call].pc)
    requires s.calls[l.call].pc.UpdateRef? && HistoryKept(s.trunk, Step(mt, s, l).trunk)
    ensures s.rows[id].state == Promoted ==> Landed(s.rows[id], Step(mt, s, l).trunk)
    ensures s.rows[id].state == Aborted ==> !Landed(s.rows[id], Step(mt, s, l).trunk)
  {
    if s.rows[id].state == Promoted { InHistoryKept(s.rows[id].merge.value, s.trunk, Step(mt, s, l).trunk); }
    if s.rows[id].state == Aborted { OthersStayOut(mt, t0, s, l, id); }
  }

  /** The trunk moves under the only live call, which then has seen its merge land. */
  lemma MovedSerial(s: State, t: State, c: nat, rec: Row, m: Commit)
    requires Serial(s) && c in s.calls && s.calls[c].pc == UpdateRef(rec) && rec.merge == Some(m)
    requires t == Goto(MoveTrunk(s, Land(s.calls[c].id, s.trunk, m)), c, FinalCas(rec)) && Agree(t)
    ensures Serial(t)
  {
    assert SerialCall(s, s.calls[c].id, s.calls[c].pc);
    assert forall d | d in t.calls :: d == c;
  }

  lemma SerialMove(mt: MergeTree, t0: Option<Commit>, s: State, l: Label)
    requires Inv(mt, t0, s) && Serial(s) && CleanBranches(s) && Step(mt, s, l).trunk != s.trunk
    ensures Serial(Step(mt, s, l))
  {
    var t := Step(mt, s, l);
    OnlyUpdateRefMoves(mt, s, l);
    assert SerialCall(s, s.calls[l.call].id, s.calls[l.call].pc);
    assert t.rows == s.rows && HistoryKept(s.trunk, t.trunk) by { StepKeeps(mt, t0, s, l); }
    forall id | id in s.rows
      ensures s.rows[id].state == Promoted ==> Landed(s.rows[id], t.trunk)
      ensures s.rows[id].state == Aborted ==> !Landed(s.rows[id], t.trunk)
    {
      MovedAgree(mt, t0, s, l, id);
    }
    MovedSerial(s, t, l.call, s.calls[l.call].pc.rec, t.trunk.value);
  }

  lemma SerialTick(mt: MergeTree, s: State, c: nat, ok: bool, now: int)
    requires Serial(s) && c in s.calls && CallInv(mt, s, s.calls[c].id, s.calls[c].pc)
    requires Advance(mt, s, c, ok, now).trunk == s.trunk
    ensures Serial(Advance(mt, s, c, ok, now))
  {
    var pc := s.calls[c].pc;
    if pc.Submitting() { SerialSubmit(s, c, now); }
    else if pc.Reconciling() { SerialReconcile(mt, s, c, ok); }
    else if pc.ValidatingPhase() { SerialValidate(mt, s, c); }
    else if pc.Landing() { SerialLand(mt, s, c, ok); }
    else { SerialAbort(mt, s, c, ok); }
  }

  lemma SerialBegin(mt: MergeTree, s: State, l: Label)
    requires Serial(s) && l.Begin? && s.calls == map[]
    ensures Serial(Step(mt, s, l))
  {
  }

  lemma SerialStay(mt: MergeTree, t0: Option<Commit>, s: State, l: Label)
    requires Inv(mt, t0, s) && Serial(s) && SerialLabel(s, l) && Step(mt, s, l).trunk == s.trunk
    ensures Serial(Step(mt, s, l))
  {
    if l.Tick? && l.call in s.calls {
      assert CallInv(mt, s, s.calls[l.call].id, s.calls[l.call].pc);
      SerialTick(mt, s, l.call, l.ok, l.now);
    } else if l.Begin? {
      SerialBegin(mt, s, l);
    }
  }

  lemma SerialStep(mt: MergeTree, t0: Option<Commit>, s: State, l: Label)
    requires Inv(mt, t0, s) && Serial(s) && CleanBranches(s) && CleanLabel(s, l) && SerialLabel(s, l)
    ensures Serial(Step(mt, s, l)) && CleanBranches(Step(mt, s, l))
  {
    if Step(mt, s, l).trunk != s.trunk {
      SerialMove(mt, t0, s, l);
      assert HistoryKept(s.trunk, Step(mt, s, l).trunk) by { StepKeeps(mt, t0, s, l); }
      CleanMove(mt, s, l);
    } else {
      CleanStep(mt, s, l);
      SerialStay(mt, t0, s, l);
    }
  }

  predicate SerialRun(mt: MergeTree, s: State, ls: seq<Label>) {
    forall k | 0 <= k < |ls| :: SerialLabel(Run(mt, s, ls[..k]), ls[k])
  }

  lemma SerialRunFront(mt: MergeTree, s: State, ls: seq<Label>)
    requires SerialRun(mt, s, ls) && ls != []
    ensures SerialRun(mt, s, Front(ls)) && SerialLabel(Run(mt, s, Front(ls)), Last(ls))
  {
    forall k | 0 <= k < |Front(ls)| ensures SerialLabel(Run(mt, s, Front(ls)[..k]), Front(ls)[k]) {
      assert Front(ls)[..k] == ls[..k];
    }
    assert ls[..|ls| - 1] == Front(ls);
  }

  /**
   Calls that follow one another and may die at any statement keep rows and ref in agreement:
   promoted rows have landed, aborted rows have not.
   */
  lemma {:induction false} SerialRunsAgree(mt: MergeTree, t0: Option<Commit>, s: State, ls: seq<Label>)
    requires Inv(mt, t0, s) && Serial(s) && CleanBranches(s) && CleanRun(mt, s, ls) && SerialRun(mt, s, ls)
    ensures Serial(Run(mt, s, ls)) && CleanBranches(Run(mt, s, ls)) && Agree(Run(mt, s, ls))
    decreases |ls|
  {
    if ls != [] {
      CleanRunFront(mt, s, ls);
      SerialRunFront(mt, s, ls);
      SerialRunsAgree(mt, t0, s, Front(ls));
      assert Inv(mt, t0, Run(mt, s, Front(ls))) by { RunKeeps(mt, t0, s, Front(ls)); }
      SerialStep(mt, t0, Run(mt, s, Front(ls)), Last(ls));
    }
  }

  /**
   From a store just opened, on any trunk and any branches that build on landed merges only, serialized
   calls that may die at any statement only reach states where a terminal row is marked promoted if and
   only if its merge is in the trunk, and a received row has none there.
   */
  lemma SerializedCallsAgree(mt: MergeTree, t0: Option<Commit>, s: State, ls: seq<Label>, id: string)
    requires Initial(s, t0) && CleanBranches(s) && CleanRun(mt, s, ls) && SerialRun(mt, s, ls)
    requires id in Run(mt, s, ls).rows
    ensures var t := Run(mt, s, ls);
            && (t.rows[id].state.Terminal() ==> (t.rows[id].state == Promoted <==> Landed(t.rows[id], t.trunk)))
            && (t.rows[id].state == Received ==> !Landed(t.rows[id], t.trunk))
            && HistoryKept(t0, t.trunk)
  {
    assert Inv(mt, t0, s) && Serial(s) by { InitialInv(mt, t0, s); }
    var t := Run(mt, s, ls);
    assert HistoryKept(s.trunk, t.trunk) by { RunKeeps(mt, t0, s, ls); }
    assert Agree(t)
      && (t.rows[id].state.Terminal() ==> t.rows[id].state == Promoted || t.rows[id].state == Aborted) by {
      SerialRunsAgree(mt, t0, s, ls);
    }
  }
}
