/**
 What every interleaving keeps. Inv is the inductive invariant; the theorems about
 trunk history, landing once, nothing merging silently and promoted being sound
 follow from it for every schedule of steps, deaths and branch moves.
 */
module TrunkSafety {
  import opened Basics
  import opened Git
  import opened TrunkMachine

  // ---- the invariant ----------------------------------------------------------

  /** m is the clean merge of exactly its own parents, made for this row against this base. */
  predicate IsMergeOf(mt: MergeTree, id: string, row: Row, m: Commit) {
    && |m.parents| == (if row.base.Some? then 2 else 1)
    && (row.base.Some? ==> m.parents[0] == row.base.value)
    && MergesTo(mt, row.base, Last(m.parents), m.tree)
    && m.message == MergeMessage(id, row.branch)
    && m.date == WholeSeconds(row.createdAt)
  }

  predicate RowInv(mt: MergeTree, trunk: Option<Commit>, id: string, row: Row) {
    && ValidRef(row.branch)
    && (row.state == Received ==> row.merge == None)
    && (row.state == Validating || row.state == Promoted ==> row.merge.Some?)
    && (row.merge.Some? ==> row.gateOK && IsMergeOf(mt, id, row, row.merge.value))
    && (row.state == Promoted ==> Landed(row, trunk))
  }

  /** now may follow before: identity never changes, a recorded merge keeps its base, terminal rows keep everything. */
  predicate RowFollows(before: Row, now: Row) {
    && now.branch == before.branch && now.holder == before.holder && now.createdAt == before.createdAt
    && (before.merge.Some? ==> now.merge == before.merge && now.base == before.base && now.gateOK == before.gateOK)
    && (before.state.Terminal() ==> now == before)
    && (now.state == Received ==> before == now)
  }

  /** The durable state may evolve from s to t. */
  predicate Evolves(s: State, t: State) {
    && (forall id | id in s.rows :: id in t.rows && RowFollows(s.rows[id], t.rows[id]))
    && HistoryKept(s.trunk, t.trunk)
    && s.log <= t.log
  }

  /** A row image some call read earlier. */
  predicate RecInv(mt: MergeTree, s: State, id: string, rec: Row) {
    id in s.rows && RowFollows(rec, s.rows[id]) && RowInv(mt, s.trunk, id, rec)
  }

  /** What a call's locals say on their own. */
  predicate LocalInv(mt: MergeTree, id: string, pc: Pc) {
    && (pc.SubmitResolve? || pc.SubmitTip? || pc.SubmitInsert? ==> ValidRef(pc.ref))
    && (pc.ReconcileTip? ==> pc.rec.state == Validating)
    && (pc.WriteCommit? ==> MergesTo(mt, pc.tip, pc.source, pc.tree))
    && (pc.SetValidating? ==> IsMergeOf(mt, id, pc.rec.(base := pc.tip), pc.made))
    && (pc.AbortLandedTip? || pc.AbortCas? ==> !pc.rec.state.Terminal())
    && (pc.AbortCas? ==> pc.to.Terminal())
  }

  predicate CallInv(mt: MergeTree, s: State, id: string, pc: Pc) {
    && LocalInv(mt, id, pc)
    && (pc.HasRec() ==> RecInv(mt, s, id, pc.rec))
    && (pc.SawLanded() ==> Landed(pc.rec, s.trunk))
  }

  /** The trunk before the i-th landing. */
  function TrunkAt(t0: Option<Commit>, log: seq<Landing>, i: nat): Option<Commit>
    requires i <= |log|
  {
    if i == 0 then t0 else Some(log[i - 1].merge)
  }

  /** The landings form one chain from t0 to the trunk, each a row's recorded merge on its recorded base. */
  predicate LogInv(t0: Option<Commit>, s: State) {
    && s.trunk == TrunkAt(t0, s.log, |s.log|)
    && (forall i | 0 <= i < |s.log| :: s.log[i].base == TrunkAt(t0, s.log, i))
    && (forall i | 0 <= i < |s.log| ::
          && s.log[i].id in s.rows
          && s.rows[s.log[i].id].merge == Some(s.log[i].merge)
          && s.rows[s.log[i].id].base == s.log[i].base)
  }

  predicate RowsInv(mt: MergeTree, s: State) {
    forall id | id in s.rows :: RowInv(mt, s.trunk, id, s.rows[id])
  }

  predicate CallsInv(mt: MergeTree, s: State) {
    forall c | c in s.calls :: CallInv(mt, s, s.calls[c].id, s.calls[c].pc)
  }

  predicate Inv(mt: MergeTree, t0: Option<Commit>, s: State) {
    RowsInv(mt, s) && CallsInv(mt, s) && LogInv(t0, s)
  }

  // ---- one step keeps it --------------------------------------------------------

  lemma FollowsTransitive(a: Row, b: Row, c: Row)
    requires RowFollows(a, b) && RowFollows(b, c)
    ensures RowFollows(a, c)
  {
  }

  lemma RowStable(mt: MergeTree, before: Option<Commit>, after: Option<Commit>, id: string, row: Row)
    requires RowInv(mt, before, id, row) && HistoryKept(before, after)
    ensures RowInv(mt, after, id, row)
  {
    if row.state == Promoted {
      InHistoryKept(row.merge.value, before, after);
    }
  }

  /** What a call remembers stays true while others run. */
  lemma CallStable(mt: MergeTree, s: State, t: State, id: string, pc: Pc)
    requires Evolves(s, t) && CallInv(mt, s, id, pc)
    ensures CallInv(mt, t, id, pc)
  {
    if pc.HasRec() {
      FollowsTransitive(pc.rec, s.rows[id], t.rows[id]);
      RowStable(mt, s.trunk, t.trunk, id, pc.rec);
      if pc.SawLanded() {
        InHistoryKept(pc.rec.merge.value, s.trunk, t.trunk);
      }
    }
  }

  /** A step whose calls are old ones, except c at a pc already justified in the new state. */
  lemma CallsKept(mt: MergeTree, s: State, t: State, c: nat)
    requires CallsInv(mt, s) && Evolves(s, t)
    requires forall d | d in t.calls && d != c :: d in s.calls && t.calls[d] == s.calls[d]
    requires c in t.calls ==> CallInv(mt, t, t.calls[c].id, t.calls[c].pc)
    ensures CallsInv(mt, t)
  {
    forall d | d in t.calls ensures CallInv(mt, t, t.calls[d].id, t.calls[d].pc) {
      if d != c {
        CallStable(mt, s, t, s.calls[d].id, s.calls[d].pc);
      }
    }
  }

  lemma CallsUnchanged(mt: MergeTree, s: State, t: State)
    requires CallsInv(mt, s) && Evolves(s, t) && t.calls == s.calls
    ensures CallsInv(mt, t)
  {
    forall d | d in t.calls ensures CallInv(mt, t, t.calls[d].id, t.calls[d].pc) {
      CallStable(mt, s, t, s.calls[d].id, s.calls[d].pc);
    }
  }

  lemma WriteRowEvolves(s: State, id: string, row: Row)
    requires id in s.rows ==> RowFollows(s.rows[id], row)
    ensures Evolves(s, WriteRow(s, id, row))
  {
  }

  lemma GotoKeeps(mt: MergeTree, t0: Option<Commit>, s: State, c: nat, pc: Pc)
    requires Inv(mt, t0, s) && c in s.calls && CallInv(mt, s, s.calls[c].id, pc)
    ensures Inv(mt, t0, Goto(s, c, pc)) && Evolves(s, Goto(s, c, pc))
  {
    var t := Goto(s, c, pc);
    CallStable(mt, s, t, s.calls[c].id, pc);
    CallsKept(mt, s, t, c);
  }

  lemma EndKeeps(mt: MergeTree, t0: Option<Commit>, s: State, c: nat)
    requires Inv(mt, t0, s)
    ensures Inv(mt, t0, End(s, c)) && Evolves(s, End(s, c))
  {
    CallsKept(mt, s, End(s, c), c);
  }

  lemma WriteRowKeepsLog(t0: Option<Commit>, s: State, id: string, row: Row)
    requires LogInv(t0, s) && (id in s.rows ==> RowFollows(s.rows[id], row))
    ensures LogInv(t0, WriteRow(s, id, row))
  {
  }

  /** Writing one row to an image that may follow the present one. */
  lemma WriteRowKeeps(mt: MergeTree, t0: Option<Commit>, s: State, id: string, row: Row)
    requires Inv(mt, t0, s)
    requires RowInv(mt, s.trunk, id, row) && (id in s.rows ==> RowFollows(s.rows[id], row))
    ensures Inv(mt, t0, WriteRow(s, id, row)) && Evolves(s, WriteRow(s, id, row))
  {
    var t := WriteRow(s, id, row);
    WriteRowKeepsLog(t0, s, id, row);
    WriteRowEvolves(s, id, row);
    CallsUnchanged(mt, s, t);
    assert RowsInv(mt, t);
  }

  lemma CasEndKeeps(mt: MergeTree, t0: Option<Commit>, s: State, c: nat, from: RowState, to: RowState)
    requires Inv(mt, t0, s) && c in s.calls && s.calls[c].pc.HasRec() && !from.Terminal() && to.Terminal()
    requires to == Promoted ==> s.calls[c].pc.SawLanded()
    ensures Inv(mt, t0, CasEnd(s, c, from, to)) && Evolves(s, CasEnd(s, c, from, to))
  {
    var id := s.calls[c].id;
    assert CallInv(mt, s, id, s.calls[c].pc);
    if id in s.rows && s.rows[id].state == from {
      var row := s.rows[id].(state := to);
      assert RowInv(mt, s.trunk, id, s.rows[id]);
      WriteRowKeeps(mt, t0, s, id, row);
      EndKeeps(mt, t0, WriteRow(s, id, row), c);
      EvolvesTransitive(s, WriteRow(s, id, row), CasEnd(s, c, from, to));
    } else {
      EndKeeps(mt, t0, s, c);
    }
  }

  /** The only step that moves the ref: compare-and-swap from the recorded base to the recorded merge. */
  lemma MoveTrunkKeeps(mt: MergeTree, t0: Option<Commit>, s: State, id: string, rec: Row)
    requires Inv(mt, t0, s) && RecInv(mt, s, id, rec) && rec.merge.Some? && s.trunk == rec.base
    ensures var t := MoveTrunk(s, Land(id, rec.base, rec.merge.value));
            Inv(mt, t0, t) && Evolves(s, t) && Landed(rec, t.trunk)
  {
    var t := MoveTrunk(s, Land(id, rec.base, rec.merge.value));
    assert HistoryKept(s.trunk, t.trunk) by {
      assert IsMergeOf(mt, id, rec, rec.merge.value);
      if s.trunk.Some? {
        assert Ancestor(s.trunk.value, rec.merge.value.parents[0]);
      }
    }
    forall r | r in t.rows ensures RowInv(mt, t.trunk, r, t.rows[r]) {
      RowStable(mt, s.trunk, t.trunk, r, s.rows[r]);
    }
    MoveTrunkKeepsLog(t0, s, Land(id, rec.base, rec.merge.value));
    CallsUnchanged(mt, s, t);
  }

  lemma TrunkAtPrefix(t0: Option<Commit>, log: seq<Landing>, l: Landing, i: nat)
    requires i <= |log|
    ensures TrunkAt(t0, log + [l], i) == TrunkAt(t0, log, i)
  {
  }

  lemma BasesAppended(t0: Option<Commit>, log: seq<Landing>, l: Landing)
    requires l.base == TrunkAt(t0, log, |log|)
    requires forall i | 0 <= i < |log| :: log[i].base == TrunkAt(t0, log, i)
    ensures forall i | 0 <= i < |log| + 1 :: (log + [l])[i].base == TrunkAt(t0, log + [l], i)
  {
    forall i | 0 <= i < |log| + 1 ensures (log + [l])[i].base == TrunkAt(t0, log + [l], i) {
      TrunkAtPrefix(t0, log, l, i);
    }
  }

  lemma MoveTrunkKeepsLog(t0: Option<Commit>, s: State, l: Landing)
    requires LogInv(t0, s) && l.base == s.trunk
    requires l.id in s.rows && s.rows[l.id].merge == Some(l.merge) && s.rows[l.id].base == l.base
    ensures LogInv(t0, MoveTrunk(s, l))
  {
    var log := s.log + [l];
    BasesAppended(t0, s.log, l);
    forall i | 0 <= i < |log|
      ensures log[i].id in s.rows && s.rows[log[i].id].merge == Some(log[i].merge)
                && s.rows[log[i].id].base == log[i].base
    {
      if i < |s.log| { assert log[i] == s.log[i]; }
    }
  }

  lemma InsertKeeps(mt: MergeTree, t0: Option<Commit>, s: State, c: nat, now: int)
    requires Inv(mt, t0, s) && c in s.calls && s.calls[c].pc.SubmitInsert? && s.calls[c].id !in s.rows
    ensures Inv(mt, t0, SubmitStep(s, c, now)) && Evolves(s, SubmitStep(s, c, now))
  {
    var id, pc := s.calls[c].id, s.calls[c].pc;
    var row := Row(pc.ref, s.calls[c].session, pc.base, None, Received, false, now);
    assert ValidRef(pc.ref) by { assert CallInv(mt, s, id, pc); }
    WriteRowKeeps(mt, t0, s, id, row);
    EndKeeps(mt, t0, WriteRow(s, id, row), c);
    EvolvesTransitive(s, WriteRow(s, id, row), SubmitStep(s, c, now));
  }

  lemma SubmitStepKeeps(mt: MergeTree, t0: Option<Commit>, s: State, c: nat, now: int)
    requires Inv(mt, t0, s) && c in s.calls && s.calls[c].pc.Submitting()
    ensures Inv(mt, t0, SubmitStep(s, c, now)) && Evolves(s, SubmitStep(s, c, now))
  {
    var pc := s.calls[c].pc;
    assert ValidRef(pc.ref) by { assert CallInv(mt, s, s.calls[c].id, pc); }
    if pc.SubmitInsert? && s.calls[c].id !in s.rows {
      InsertKeeps(mt, t0, s, c, now);
    } else if pc.SubmitTip? {
      GotoKeeps(mt, t0, s, c, SubmitInsert(pc.ref, s.trunk));
    } else if pc.SubmitResolve? && pc.ref in s.branches {
      GotoKeeps(mt, t0, s, c, SubmitTip(pc.ref));
    } else {
      EndKeeps(mt, t0, s, c);
    }
  }

  lemma FreshRec(mt: MergeTree, t0: Option<Commit>, s: State, id: string)
    requires Inv(mt, t0, s) && id in s.rows
    ensures RecInv(mt, s, id, s.rows[id])
  {
  }

  lemma StatusGetKeeps(mt: MergeTree, t0: Option<Commit>, s: State, c: nat)
    requires Inv(mt, t0, s) && c in s.calls && s.calls[c].pc.StatusGet?
    ensures Inv(mt, t0, ReconcileStep(s, c, true)) && Evolves(s, ReconcileStep(s, c, true))
  {
    var id := s.calls[c].id;
    if id in s.rows && s.rows[id].state == Validating {
      FreshRec(mt, t0, s, id);
      GotoKeeps(mt, t0, s, c, ReconcileTip(s.rows[id], false));
    } else {
      EndKeeps(mt, t0, s, c);
    }
  }

  lemma PromoteGetKeeps(mt: MergeTree, t0: Option<Commit>, s: State, c: nat)
    requires Inv(mt, t0, s) && c in s.calls && s.calls[c].pc.PromoteGet?
    ensures Inv(mt, t0, ReconcileStep(s, c, true)) && Evolves(s, ReconcileStep(s, c, true))
  {
    var id := s.calls[c].id;
    if id !in s.rows || s.rows[id].state.Terminal() {
      EndKeeps(mt, t0, s, c);
    } else {
      FreshRec(mt, t0, s, id);
      if s.rows[id].state == Validating {
        GotoKeeps(mt, t0, s, c, ReconcileTip(s.rows[id], true));
      } else {
        GotoKeeps(mt, t0, s, c, ReadTip(s.rows[id]));
      }
    }
  }

  lemma ReconcileTipKeeps(mt: MergeTree, t0: Option<Commit>, s: State, c: nat, ok: bool)
    requires Inv(mt, t0, s) && c in s.calls && s.calls[c].pc.ReconcileTip?
    ensures Inv(mt, t0, ReconcileStep(s, c, ok)) && Evolves(s, ReconcileStep(s, c, ok))
  {
    var id, pc := s.calls[c].id, s.calls[c].pc;
    assert CallInv(mt, s, id, pc);
    if ok && Landed(pc.rec, s.trunk) {
      GotoKeeps(mt, t0, s, c, ReconcileCas(pc.rec));
    } else if pc.promoting {
      GotoKeeps(mt, t0, s, c, AcquireLease);
    } else {
      EndKeeps(mt, t0, s, c);
    }
  }

  lemma ReconcileStepKeeps(mt: MergeTree, t0: Option<Commit>, s: State, c: nat, ok: bool)
    requires Inv(mt, t0, s) && c in s.calls && s.calls[c].pc.Reconciling()
    ensures Inv(mt, t0, ReconcileStep(s, c, ok)) && Evolves(s, ReconcileStep(s, c, ok))
  {
    var pc := s.calls[c].pc;
    if pc.ReconcileCas? {
      CasEndKeeps(mt, t0, s, c, Validating, Promoted);
    } else if pc.ReconcileTip? {
      ReconcileTipKeeps(mt, t0, s, c, ok);
    } else if pc.PromoteGet? {
      PromoteGetKeeps(mt, t0, s, c);
    } else {
      StatusGetKeeps(mt, t0, s, c);
    }
  }

  /** The commit a call writes is the clean merge of its own parents. */
  lemma BuiltIsMerge(mt: MergeTree, s: State, id: string, pc: Pc)
    requires pc.WriteCommit? && CallInv(mt, s, id, pc)
    ensures CallInv(mt, s, id, SetValidating(pc.rec, pc.tip, MergeFor(id, pc.rec, pc.tip, pc.source, pc.tree)))
  {
  }

  lemma GateStepKeeps(mt: MergeTree, t0: Option<Commit>, s: State, c: nat)
    requires Inv(mt, t0, s) && c in s.calls && (s.calls[c].pc.RunGate? || s.calls[c].pc.WriteCommit?)
    ensures Inv(mt, t0, ValidateStep(mt, s, c)) && Evolves(s, ValidateStep(mt, s, c))
  {
    var id, pc := s.calls[c].id, s.calls[c].pc;
    assert CallInv(mt, s, id, pc);
    if pc.WriteCommit? {
      BuiltIsMerge(mt, s, id, pc);
      GotoKeeps(mt, t0, s, c, SetValidating(pc.rec, pc.tip, MergeFor(id, pc.rec, pc.tip, pc.source, pc.tree)));
    } else {
      RunGateKeeps(mt, t0, s, c);
    }
  }

  lemma RunGateKeeps(mt: MergeTree, t0: Option<Commit>, s: State, c: nat)
    requires Inv(mt, t0, s) && c in s.calls && s.calls[c].pc.RunGate?
    ensures Inv(mt, t0, ValidateStep(mt, s, c)) && Evolves(s, ValidateStep(mt, s, c))
  {
    var id, pc := s.calls[c].id, s.calls[c].pc;
    assert CallInv(mt, s, id, pc);
    match Validate(mt, pc.tip, pc.source)
    case Pass(tree) =>
      PassesIffClean(mt, pc.tip, pc.source, tree);
      GotoKeeps(mt, t0, s, c, WriteCommit(pc.rec, pc.tip, pc.source, tree));
    case Reject(_) => GotoKeeps(mt, t0, s, c, RejectCas(pc.rec));
    case GateError => EndKeeps(mt, t0, s, c);
  }

  lemma MarkedRow(mt: MergeTree, trunk: Option<Commit>, id: string, rec: Row, row: Row, tip: Option<Commit>,
                  made: Commit)
    requires RowInv(mt, trunk, id, row) && row.state == Received && RowFollows(rec, row)
    requires IsMergeOf(mt, id, rec.(base := tip), made)
    ensures RowInv(mt, trunk, id, MarkValidating(row, tip, made)) && RowFollows(row, MarkValidating(row, tip, made))
  {
  }

  lemma WriteThenGoto(mt: MergeTree, t0: Option<Commit>, s: State, c: nat, row: Row, pc: Pc)
    requires Inv(mt, t0, s) && c in s.calls && RowInv(mt, s.trunk, s.calls[c].id, row)
    requires s.calls[c].id in s.rows ==> RowFollows(s.rows[s.calls[c].id], row)
    requires CallInv(mt, WriteRow(s, s.calls[c].id, row), s.calls[c].id, pc)
    ensures var t := Goto(WriteRow(s, s.calls[c].id, row), c, pc); Inv(mt, t0, t) && Evolves(s, t)
  {
    var u := WriteRow(s, s.calls[c].id, row);
    WriteRowKeeps(mt, t0, s, s.calls[c].id, row);
    GotoKeeps(mt, t0, u, c, pc);
    EvolvesTransitive(s, u, Goto(u, c, pc));
  }

  /** The one statement that records base, merge and gate together. */
  lemma RecordStep(mt: MergeTree, s: State, c: nat)
    requires c in s.calls && s.calls[c].pc.SetValidating? && s.calls[c].id in s.rows
    ensures var id, pc := s.calls[c].id, s.calls[c].pc;
            ValidateStep(mt, s, c) ==
              if s.rows[id].state == Received then
                Goto(WriteRow(s, id, MarkValidating(s.rows[id], pc.tip, pc.made)), c, AcquireLease)
              else Goto(s, c, Reget)
  {
  }

  lemma RecordKeeps(mt: MergeTree, t0: Option<Commit>, s: State, c: nat)
    requires Inv(mt, t0, s) && c in s.calls && s.calls[c].pc.SetValidating?
    requires s.calls[c].id in s.rows && s.rows[s.calls[c].id].state == Received
    ensures Inv(mt, t0, ValidateStep(mt, s, c)) && Evolves(s, ValidateStep(mt, s, c))
  {
    var id, pc := s.calls[c].id, s.calls[c].pc;
    var row := MarkValidating(s.rows[id], pc.tip, pc.made);
    assert RowInv(mt, s.trunk, id, row) && RowFollows(s.rows[id], row) by {
      assert CallInv(mt, s, id, pc) && RowInv(mt, s.trunk, id, s.rows[id]);
      MarkedRow(mt, s.trunk, id, pc.rec, s.rows[id], pc.tip, pc.made);
    }
    WriteThenGoto(mt, t0, s, c, row, AcquireLease);
    RecordStep(mt, s, c);
  }

  lemma RegetKeeps(mt: MergeTree, t0: Option<Commit>, s: State, c: nat)
    requires Inv(mt, t0, s) && c in s.calls && s.calls[c].pc.SetValidating?
    requires s.calls[c].id in s.rows && s.rows[s.calls[c].id].state != Received
    ensures Inv(mt, t0, ValidateStep(mt, s, c)) && Evolves(s, ValidateStep(mt, s, c))
  {
    GotoKeeps(mt, t0, s, c, Reget);
    RecordStep(mt, s, c);
  }

  lemma SetValidatingKeeps(mt: MergeTree, t0: Option<Commit>, s: State, c: nat)
    requires Inv(mt, t0, s) && c in s.calls && s.calls[c].pc.SetValidating?
    ensures Inv(mt, t0, ValidateStep(mt, s, c)) && Evolves(s, ValidateStep(mt, s, c))
  {
    assert s.calls[c].id in s.rows by { assert CallInv(mt, s, s.calls[c].id, s.calls[c].pc); }
    if s.rows[s.calls[c].id].state == Received {
      RecordKeeps(mt, t0, s, c);
    } else {
      RegetKeeps(mt, t0, s, c);
    }
  }

  lemma ValidateStepKeeps(mt: MergeTree, t0: Option<Commit>, s: State, c: nat)
    requires Inv(mt, t0, s) && c in s.calls && s.calls[c].pc.ValidatingPhase()
    ensures Inv(mt, t0, ValidateStep(mt, s, c)) && Evolves(s, ValidateStep(mt, s, c))
  {
    var id, pc := s.calls[c].id, s.calls[c].pc;
    assert CallInv(mt, s, id, pc);
    if pc.RunGate? || pc.WriteCommit? {
      GateStepKeeps(mt, t0, s, c);
    } else if pc.SetValidating? {
      SetValidatingKeeps(mt, t0, s, c);
    } else if pc.RejectCas? {
      CasEndKeeps(mt, t0, s, c, Received, Aborted);
    } else if pc.ReadTip? {
      GotoKeeps(mt, t0, s, c, Resolve(pc.rec, s.trunk));
    } else if pc.Resolve? {
      GotoKeeps(mt, t0, s, c, RejectCas(pc.rec));
      if pc.rec.branch in s.branches {
        GotoKeeps(mt, t0, s, c, RunGate(pc.rec, pc.tip, s.branches[pc.rec.branch]));
      }
    } else {
      GotoKeeps(mt, t0, s, c, AcquireLease);
    }
  }

  lemma AdvanceTrunkKeeps(mt: MergeTree, t0: Option<Commit>, s: State, c: nat)
    requires Inv(mt, t0, s) && c in s.calls && s.calls[c].pc.UpdateRef?
    requires s.calls[c].pc.rec.merge.Some? && s.trunk == s.calls[c].pc.rec.base
    ensures var id, rec := s.calls[c].id, s.calls[c].pc.rec;
            var t := Goto(MoveTrunk(s, Land(id, rec.base, rec.merge.value)), c, FinalCas(rec));
            Inv(mt, t0, t) && Evolves(s, t)
  {
    var id, pc := s.calls[c].id, s.calls[c].pc;
    assert CallInv(mt, s, id, pc);
    var u := MoveTrunk(s, Land(id, pc.rec.base, pc.rec.merge.value));
    MoveTrunkKeeps(mt, t0, s, id, pc.rec);
    CallStable(mt, s, u, id, pc);
    GotoKeeps(mt, t0, u, c, FinalCas(pc.rec));
    EvolvesTransitive(s, u, Goto(u, c, FinalCas(pc.rec)));
  }

  lemma UpdateRefStep(s: State, c: nat)
    requires c in s.calls && s.calls[c].pc.UpdateRef?
    ensures var id, rec := s.calls[c].id, s.calls[c].pc.rec;
            LandStep(s, c, true) ==
              if rec.merge.Some? && s.trunk == rec.base then
                Goto(MoveTrunk(s, Land(id, rec.base, rec.merge.value)), c, FinalCas(rec))
              else End(s, c)
  {
  }

  lemma UpdateRefKeeps(mt: MergeTree, t0: Option<Commit>, s: State, c: nat)
    requires Inv(mt, t0, s) && c in s.calls && s.calls[c].pc.UpdateRef?
    ensures Inv(mt, t0, LandStep(s, c, true)) && Evolves(s, LandStep(s, c, true))
  {
    var rec := s.calls[c].pc.rec;
    if rec.merge.Some? && s.trunk == rec.base {
      AdvanceTrunkKeeps(mt, t0, s, c);
    } else {
      EndKeeps(mt, t0, s, c);
    }
    UpdateRefStep(s, c);
  }

  lemma LandedTipKeeps(mt: MergeTree, t0: Option<Commit>, s: State, c: nat)
    requires Inv(mt, t0, s) && c in s.calls && s.calls[c].pc.LandedTip?
    ensures Inv(mt, t0, LandStep(s, c, true)) && Evolves(s, LandStep(s, c, true))
  {
    var id, pc := s.calls[c].id, s.calls[c].pc;
    assert CallInv(mt, s, id, pc);
    if Landed(pc.rec, s.trunk) {
      GotoKeeps(mt, t0, s, c, LandedCas(pc.rec));
    } else {
      GotoKeeps(mt, t0, s, c, NowTip(pc.rec));
    }
  }

  lemma NowTipKeeps(mt: MergeTree, t0: Option<Commit>, s: State, c: nat)
    requires Inv(mt, t0, s) && c in s.calls && s.calls[c].pc.NowTip?
    ensures Inv(mt, t0, LandStep(s, c, true)) && Evolves(s, LandStep(s, c, true))
  {
    var id, pc := s.calls[c].id, s.calls[c].pc;
    assert CallInv(mt, s, id, pc);
    if s.trunk == pc.rec.base {
      GotoKeeps(mt, t0, s, c, UpdateRef(pc.rec));
    } else {
      GotoKeeps(mt, t0, s, c, StaleCas(pc.rec));
    }
  }

  lemma LeaseAndReloadKeep(mt: MergeTree, t0: Option<Commit>, s: State, c: nat, ok: bool)
    requires Inv(mt, t0, s) && c in s.calls && (s.calls[c].pc.AcquireLease? || s.calls[c].pc.Reload?)
    ensures Inv(mt, t0, LandStep(s, c, ok)) && Evolves(s, LandStep(s, c, ok))
  {
    var id, pc := s.calls[c].id, s.calls[c].pc;
    if pc.AcquireLease? && ok {
      GotoKeeps(mt, t0, s, c, Reload);
    } else if pc.Reload? && id in s.rows {
      FreshRec(mt, t0, s, id);
      GotoKeeps(mt, t0, s, c, LandedTip(s.rows[id]));
    } else {
      EndKeeps(mt, t0, s, c);
    }
  }

  lemma LandStepKeeps(mt: MergeTree, t0: Option<Commit>, s: State, c: nat, ok: bool)
    requires Inv(mt, t0, s) && c in s.calls && s.calls[c].pc.Landing()
    ensures Inv(mt, t0, LandStep(s, c, ok)) && Evolves(s, LandStep(s, c, ok))
  {
    var pc := s.calls[c].pc;
    if pc.LandedCas? || pc.FinalCas? {
      CasEndKeeps(mt, t0, s, c, Validating, Promoted);
    } else if pc.StaleCas? {
      CasEndKeeps(mt, t0, s, c, Validating, Aborted);
    } else if pc.UpdateRef? {
      UpdateRefKeeps(mt, t0, s, c);
    } else if pc.LandedTip? {
      LandedTipKeeps(mt, t0, s, c);
    } else if pc.NowTip? {
      NowTipKeeps(mt, t0, s, c);
    } else {
      LeaseAndReloadKeep(mt, t0, s, c, ok);
    }
  }

  lemma AbortGetKeeps(mt: MergeTree, t0: Option<Commit>, s: State, c: nat, ok: bool)
    requires Inv(mt, t0, s) && c in s.calls && s.calls[c].pc.AbortGet?
    ensures Inv(mt, t0, AbortStep(s, c, ok)) && Evolves(s, AbortStep(s, c, ok))
  {
    var id := s.calls[c].id;
    if id in s.rows && !s.rows[id].state.Terminal() {
      FreshRec(mt, t0, s, id);
      GotoKeeps(mt, t0, s, c, AbortLandedTip(s.rows[id]));
    } else {
      EndKeeps(mt, t0, s, c);
    }
  }

  lemma AbortAsKeeps(mt: MergeTree, t0: Option<Commit>, s: State, c: nat, ok: bool)
    requires Inv(mt, t0, s) && c in s.calls && (s.calls[c].pc.AbortAsGet? || s.calls[c].pc.AbortAsTip?)
    ensures Inv(mt, t0, AbortStep(s, c, ok)) && Evolves(s, AbortStep(s, c, ok))
  {
    var id := s.calls[c].id;
    if AbortStep(s, c, ok) == End(s, c) {
      EndKeeps(mt, t0, s, c);
    } else if s.calls[c].pc.AbortAsTip? || s.rows[id].state.Terminal() {
      GotoKeeps(mt, t0, s, c, AbortGet);
    } else {
      FreshRec(mt, t0, s, id);
      GotoKeeps(mt, t0, s, c, AbortAsTip(s.rows[id]));
    }
  }

  lemma AbortTipKeeps(mt: MergeTree, t0: Option<Commit>, s: State, c: nat, ok: bool)
    requires Inv(mt, t0, s) && c in s.calls && s.calls[c].pc.AbortLandedTip?
    ensures Inv(mt, t0, AbortStep(s, c, ok)) && Evolves(s, AbortStep(s, c, ok))
  {
    var id, pc := s.calls[c].id, s.calls[c].pc;
    assert CallInv(mt, s, id, pc);
    if Landed(pc.rec, s.trunk) {
      GotoKeeps(mt, t0, s, c, AbortCas(pc.rec, Promoted));
    } else {
      GotoKeeps(mt, t0, s, c, AbortCas(pc.rec, Aborted));
    }
  }

  lemma AbortStepKeeps(mt: MergeTree, t0: Option<Commit>, s: State, c: nat, ok: bool)
    requires Inv(mt, t0, s) && c in s.calls && s.calls[c].pc.Aborting()
    ensures Inv(mt, t0, AbortStep(s, c, ok)) && Evolves(s, AbortStep(s, c, ok))
  {
    var pc := s.calls[c].pc;
    if pc.AbortCas? {
      assert CallInv(mt, s, s.calls[c].id, pc);
      CasEndKeeps(mt, t0, s, c, pc.rec.state, pc.to);
    } else if pc.AbortLandedTip? {
      AbortTipKeeps(mt, t0, s, c, ok);
    } else if pc.AbortGet? {
      AbortGetKeeps(mt, t0, s, c, ok);
    } else {
      AbortAsKeeps(mt, t0, s, c, ok);
    }
  }

  lemma AdvanceKeeps(mt: MergeTree, t0: Option<Commit>, s: State, c: nat, ok: bool, now: int)
    requires Inv(mt, t0, s) && c in s.calls
    ensures Inv(mt, t0, Advance(mt, s, c, ok, now)) && Evolves(s, Advance(mt, s, c, ok, now))
  {
    var pc := s.calls[c].pc;
    if pc.Submitting() { SubmitStepKeeps(mt, t0, s, c, now); }
    else if pc.Reconciling() { ReconcileStepKeeps(mt, t0, s, c, ok); }
    else if pc.ValidatingPhase() { ValidateStepKeeps(mt, t0, s, c); }
    else if pc.Landing() { LandStepKeeps(mt, t0, s, c, ok); }
    else { AbortStepKeeps(mt, t0, s, c, ok); }
  }

  lemma CallAdded(mt: MergeTree, t0: Option<Commit>, s: State, c: nat, call: Call)
    requires Inv(mt, t0, s) && c !in s.calls && LocalInv(mt, call.id, call.pc) && !call.pc.HasRec()
    ensures var t := s.(calls := s.calls[c := call]); Inv(mt, t0, t) && Evolves(s, t)
  {
    CallsKept(mt, s, s.(calls := s.calls[c := call]), c);
  }

  lemma BeginStep(mt: MergeTree, s: State, l: Label)
    requires l.Begin?
    ensures Step(mt, s, l) ==
              if l.call !in s.calls && (l.op.Submit? ==> ValidRef(l.op.branch)) then
                s.(calls := s.calls[l.call := Call(l.session, l.id, FirstPc(l.op))])
              else s
  {
  }

  /** A call starts knowing nothing but its own arguments. */
  lemma FirstPcLocal(mt: MergeTree, id: string, op: Op)
    requires op.Submit? ==> ValidRef(op.branch)
    ensures LocalInv(mt, id, FirstPc(op)) && !FirstPc(op).HasRec()
  {
  }

  lemma EvolvesReflexive(s: State)
    ensures Evolves(s, s)
  {
  }

  lemma BeginKeeps(mt: MergeTree, t0: Option<Commit>, s: State, l: Label)
    requires Inv(mt, t0, s) && l.Begin?
    ensures Inv(mt, t0, Step(mt, s, l)) && Evolves(s, Step(mt, s, l))
  {
    BeginStep(mt, s, l);
    if l.call !in s.calls && (l.op.Submit? ==> ValidRef(l.op.branch)) {
      FirstPcLocal(mt, l.id, l.op);
      CallAdded(mt, t0, s, l.call, Call(l.session, l.id, FirstPc(l.op)));
    } else {
      EvolvesReflexive(s);
    }
  }

  /** Agents may push to their branches at any time. */
  lemma BranchesKeep(mt: MergeTree, t0: Option<Commit>, s: State, branches: map<string, Commit>)
    requires Inv(mt, t0, s)
    ensures Inv(mt, t0, s.(branches := branches)) && Evolves(s, s.(branches := branches))
  {
    CallsUnchanged(mt, s, s.(branches := branches));
  }

  lemma StepKeeps(mt: MergeTree, t0: Option<Commit>, s: State, l: Label)
    requires Inv(mt, t0, s)
    ensures Inv(mt, t0, Step(mt, s, l)) && Evolves(s, Step(mt, s, l))
  {
    match l
    case Tick(c, ok, now) =>
      if c in s.calls {
        AdvanceKeeps(mt, t0, s, c, ok, now);
      } else {
        assert Step(mt, s, l) == s;
      }
    case Die(c) => EndKeeps(mt, t0, s, c);
    case Begin(_, _, _, _) => BeginKeeps(mt, t0, s, l);
    case SetBranch(ref, target) => BranchesKeep(mt, t0, s, s.branches[ref := target]);
    case DropBranch(ref) => BranchesKeep(mt, t0, s, s.branches - {ref});
  }

  lemma EvolvesTransitive(s: State, t: State, u: State)
    requires Evolves(s, t) && Evolves(t, u)
    ensures Evolves(s, u)
  {
    HistoryKeptTransitive(s.trunk, t.trunk, u.trunk);
    forall id | id in s.rows ensures id in u.rows && RowFollows(s.rows[id], u.rows[id]) {
      FollowsTransitive(s.rows[id], t.rows[id], u.rows[id]);
    }
  }

  // ---- theorems over whole runs ---------------------------------------------------

  /**
   Every schedule keeps the invariant, and every later state follows from every earlier one:
   each earlier tip stays an ancestor of each later tip, a recorded (base, merge) pair never
   changes, and a terminal row never changes again.
   */
  lemma {:induction false} RunKeeps(mt: MergeTree, t0: Option<Commit>, s: State, ls: seq<Label>)
    requires Inv(mt, t0, s)
    ensures Inv(mt, t0, Run(mt, s, ls)) && Evolves(s, Run(mt, s, ls))
    decreases |ls|
  {
    if ls != [] {
      RunKeeps(mt, t0, s, Front(ls));
      StepKeeps(mt, t0, Run(mt, s, Front(ls)), Last(ls));
      EvolvesTransitive(s, Run(mt, s, Front(ls)), Run(mt, s, ls));
    }
  }

  lemma InitialInv(mt: MergeTree, t0: Option<Commit>, s: State)
    requires Initial(s, t0)
    ensures Inv(mt, t0, s)
  {
  }

  /** The states some schedule reaches from a store opened on a trunk at t0. */
  ghost predicate Reachable(mt: MergeTree, t0: Option<Commit>, s: State) {
    exists s0: State, ls: seq<Label> :: Initial(s0, t0) && Run(mt, s0, ls) == s
  }

  lemma ReachableInv(mt: MergeTree, t0: Option<Commit>, s: State)
    requires Reachable(mt, t0, s)
    ensures Inv(mt, t0, s)
  {
    var s0: State, ls: seq<Label> :| Initial(s0, t0) && Run(mt, s0, ls) == s;
    InitialInv(mt, t0, s0);
    RunKeeps(mt, t0, s0, ls);
  }

  lemma ReachableStep(mt: MergeTree, t0: Option<Commit>, s: State, l: Label)
    requires Reachable(mt, t0, s)
    ensures Reachable(mt, t0, Step(mt, s, l))
  {
    var s0: State, ls: seq<Label> :| Initial(s0, t0) && Run(mt, s0, ls) == s;
    assert Front(ls + [l]) == ls;
    assert Run(mt, s0, ls + [l]) == Step(mt, s, l);
  }

  /** From a reachable state on, for every schedule: later states follow from it, and the invariant holds. */
  lemma ReachableEvolves(mt: MergeTree, t0: Option<Commit>, s: State, ls: seq<Label>)
    requires Reachable(mt, t0, s)
    ensures Evolves(s, Run(mt, s, ls)) && RowsInv(mt, Run(mt, s, ls))
  {
    ReachableInv(mt, t0, s);
    RunKeeps(mt, t0, s, ls);
  }

  /** Between any two moments of any run, nothing the trunk contained is lost. */
  lemma TrunkOnlyGrows(mt: MergeTree, t0: Option<Commit>, s: State, ls: seq<Label>, i: nat, j: nat)
    requires Reachable(mt, t0, s) && i <= j <= |ls|
    ensures HistoryKept(Run(mt, s, ls[..i]).trunk, Run(mt, s, ls[..j]).trunk)
  {
    assert Inv(mt, t0, s) by { ReachableInv(mt, t0, s); }
    var mid := Run(mt, s, ls[..i]);
    assert HistoryKept(mid.trunk, Run(mt, mid, ls[i..j]).trunk) by {
      RunKeeps(mt, t0, s, ls[..i]);
      RunKeeps(mt, t0, mid, ls[i..j]);
    }
    assert Run(mt, s, ls[..j]) == Run(mt, mid, ls[i..j]) by {
      RunSplit(mt, s, ls[..i], ls[i..j]);
      assert ls[..i] + ls[i..j] == ls[..j];
    }
  }

  lemma OtherPhasesKeepTrunk(mt: MergeTree, s: State, c: nat, ok: bool, now: int)
    requires c in s.calls && !s.calls[c].pc.Landing()
    ensures Advance(mt, s, c, ok, now).trunk == s.trunk
  {
  }

  lemma LandingMoves(s: State, c: nat, ok: bool)
    requires c in s.calls && s.calls[c].pc.Landing() && LandStep(s, c, ok).trunk != s.trunk
    ensures var pc := s.calls[c].pc;
            && pc.UpdateRef? && pc.rec.merge.Some? && s.trunk == pc.rec.base
            && LandStep(s, c, ok) == Goto(MoveTrunk(s, Land(s.calls[c].id, s.trunk, pc.rec.merge.value)), c,
                 FinalCas(pc.rec))
  {
  }

  lemma OnlyUpdateRefMoves(mt: MergeTree, s: State, l: Label)
    requires Step(mt, s, l).trunk != s.trunk
    ensures l.Tick? && l.call in s.calls && s.calls[l.call].pc.UpdateRef?
    ensures var pc := s.calls[l.call].pc;
            && pc.rec.merge.Some? && s.trunk == pc.rec.base
            && Step(mt, s, l) == Goto(MoveTrunk(s, Land(s.calls[l.call].id, s.trunk, pc.rec.merge.value)), l.call,
                 FinalCas(pc.rec))
  {
    if l.Tick? && l.call in s.calls {
      if s.calls[l.call].pc.Landing() {
        LandingMoves(s, l.call, l.ok);
      } else {
        OtherPhasesKeepTrunk(mt, s, l.call, l.ok, l.now);
      }
    }
  }

  lemma TwoParents(mt: MergeTree, id: string, row: Row, m: Commit)
    requires IsMergeOf(mt, id, row, m)
    ensures m.parents == (if row.base.Some? then [row.base.value] else []) + [Last(m.parents)]
  {
  }

  /**
   From s to t the trunk went from B to a commit whose first parent is B, or from unborn to a commit on
   the branch alone; the commit is the recorded, gate-passed merge of row id and its tree is the clean
   merge of exactly its own parents.
   */
  predicate RecordedMove(mt: MergeTree, s: State, t: State, id: string) {
    && t.trunk.Some? && id in s.rows && t.rows == s.rows && t.log == s.log + [Land(id, s.trunk, t.trunk.value)]
    && var row, m := s.rows[id], t.trunk.value;
      && row.merge == Some(m) && row.base == s.trunk && row.gateOK && m.parents != []
      && m.parents == (if s.trunk.Some? then [s.trunk.value] else []) + [Last(m.parents)]
      && MergesTo(mt, s.trunk, Last(m.parents), m.tree)
  }

  /** The row whose call moves the trunk has recorded the move. */
  lemma MoveIsRecorded(mt: MergeTree, t0: Option<Commit>, s: State, l: Label) returns (id: string)
    requires Inv(mt, t0, s) && Step(mt, s, l).trunk != s.trunk
    ensures RecordedMove(mt, s, Step(mt, s, l), id)
  {
    OnlyUpdateRefMoves(mt, s, l);
    id := s.calls[l.call].id;
    var rec := s.calls[l.call].pc.rec;
    assert RecInv(mt, s, id, rec) by {
      assert CallInv(mt, s, id, s.calls[l.call].pc);
    }
    TwoParents(mt, id, rec, rec.merge.value);
  }

  /** Whatever step changes the trunk in a reachable state, the change is some row's recorded move. */
  lemma TrunkMovesToRecordedMerge(mt: MergeTree, t0: Option<Commit>, s: State, l: Label)
    requires Reachable(mt, t0, s)
    ensures Step(mt, s, l).trunk != s.trunk ==> exists id :: RecordedMove(mt, s, Step(mt, s, l), id)
  {
    if Step(mt, s, l).trunk != s.trunk {
      ReachableInv(mt, t0, s);
      var id := MoveIsRecorded(mt, t0, s, l);
    }
  }

  /** The k-th landing replaced its base by a commit whose first parent is that base. */
  predicate OnBase(t0: Option<Commit>, log: seq<Landing>, k: nat)
    requires k < |log|
  {
    && log[k].base == TrunkAt(t0, log, k)
    && (log[k].base.Some? ==> log[k].merge.parents != [] && log[k].merge.parents[0] == log[k].base.value)
  }

  predicate Chain(t0: Option<Commit>, log: seq<Landing>) {
    forall k | 0 <= k < |log| :: OnBase(t0, log, k)
  }

  /** A landing is a gated, recorded, clean merge of its base and a branch commit. */
  predicate IsRecorded(mt: MergeTree, rows: map<string, Row>, l: Landing) {
    && l.id in rows && rows[l.id].gateOK && rows[l.id].merge == Some(l.merge) && rows[l.id].base == l.base
    && l.merge.parents != []
    && l.merge.parents == (if l.base.Some? then [l.base.value] else []) + [Last(l.merge.parents)]
    && MergesTo(mt, l.base, Last(l.merge.parents), l.merge.tree)
  }

  lemma LandingsRecorded(mt: MergeTree, t0: Option<Commit>, s: State)
    requires Inv(mt, t0, s)
    ensures forall k | 0 <= k < |s.log| :: IsRecorded(mt, s.rows, s.log[k])
  {
    forall k | 0 <= k < |s.log| ensures IsRecorded(mt, s.rows, s.log[k]) {
      var l := s.log[k];
      assert RowInv(mt, s.trunk, l.id, s.rows[l.id]);
      TwoParents(mt, l.id, s.rows[l.id], l.merge);
    }
  }

  lemma LandingsChain(mt: MergeTree, t0: Option<Commit>, s: State)
    requires Inv(mt, t0, s)
    ensures Chain(t0, s.log)
  {
    LandingsRecorded(mt, t0, s);
    forall k | 0 <= k < |s.log| ensures OnBase(t0, s.log, k) {
      assert IsRecorded(mt, s.rows, s.log[k]);
    }
  }

  lemma {:induction false} ChainGrows(t0: Option<Commit>, log: seq<Landing>, i: nat, j: nat)
    requires Chain(t0, log) && i <= j < |log|
    ensures Size(log[i].merge) <= Size(log[j].merge)
    decreases j
  {
    if i < j {
      ChainGrows(t0, log, i, j - 1);
      assert OnBase(t0, log, j);
      SizeOfElement(log[j].merge.parents, 0);
    }
  }

  lemma NoRepeat(mt: MergeTree, t0: Option<Commit>, rows: map<string, Row>, log: seq<Landing>, i: nat, j: nat)
    requires Chain(t0, log) && i < j < |log| && IsRecorded(mt, rows, log[i]) && IsRecorded(mt, rows, log[j])
    ensures log[i].id != log[j].id
  {
    assert OnBase(t0, log, i) && OnBase(t0, log, j);
    ChainGrows(t0, log, i, j - 1);
    SizeOfElement(log[j].merge.parents, 0);
  }

  /** No integration lands twice: a second advance would start from a base the trunk has strictly left behind. */
  lemma LandsAtMostOnce(mt: MergeTree, t0: Option<Commit>, s: State, i: nat, j: nat)
    requires Reachable(mt, t0, s) && i < j < |s.log|
    ensures s.log[i].id != s.log[j].id
  {
    assert Chain(t0, s.log) && IsRecorded(mt, s.rows, s.log[i]) && IsRecorded(mt, s.rows, s.log[j]) by {
      ReachableInv(mt, t0, s);
      LandingsRecorded(mt, t0, s);
      LandingsChain(mt, t0, s);
    }
    NoRepeat(mt, t0, s.rows, s.log, i, j);
  }

  /** n steps back along first parents. */
  function FirstParent(c: Commit, n: nat): Option<Commit>
    decreases n
  {
    if n == 0 then Some(c) else if c.parents == [] then None else FirstParent(c.parents[0], n - 1)
  }

  /** Walking back along first parents meets exactly the landings, newest first, and then t0. */
  lemma {:induction false} FirstParentsAreLandings(t0: Option<Commit>, log: seq<Landing>, n: nat, k: nat)
    requires Chain(t0, log) && k <= n < |log|
    ensures FirstParent(log[n].merge, k) == Some(log[n - k].merge)
    ensures t0.Some? ==> FirstParent(log[n].merge, n + 1) == t0
    decreases n
  {
    assert OnBase(t0, log, n);
    if n > 0 {
      FirstParentsAreLandings(t0, log, n - 1, if k > 0 then k - 1 else 0);
    } else if t0.Some? {
      assert FirstParent(t0.value, 0) == t0;
    }
  }

  /**
   Nothing merges silently, for every schedule: the commits on the trunk's first-parent chain down
   to the tip the store was opened on are exactly the landings, and each is a gated, recorded merge
   whose tree is the clean merge of its own parents.
   */
  lemma NothingMergesSilently(mt: MergeTree, t0: Option<Commit>, s: State, k: nat)
    requires Reachable(mt, t0, s) && k < |s.log|
    ensures s.trunk.Some? && FirstParent(s.trunk.value, k) == Some(s.log[|s.log| - 1 - k].merge)
    ensures IsRecorded(mt, s.rows, s.log[|s.log| - 1 - k])
    ensures t0.Some? ==> FirstParent(s.trunk.value, |s.log|) == t0
  {
    var i := |s.log| - 1 - k;
    assert Chain(t0, s.log) && IsRecorded(mt, s.rows, s.log[i]) && s.trunk == TrunkAt(t0, s.log, |s.log|) by {
      ReachableInv(mt, t0, s);
      LandingsRecorded(mt, t0, s);
      LandingsChain(mt, t0, s);
    }
    FirstParentsAreLandings(t0, s.log, |s.log| - 1, k);
  }

  /**
   What a recorded merge is, in git's own terms: its parents are the recorded base, if there was a trunk,
   and one branch commit; git merges these two cleanly into its tree, or without a trunk the tree is the
   branch's own; message and date name the integration. A conflicting branch is never recorded.
   */
  lemma RecordedIsClean(mt: MergeTree, t0: Option<Commit>, s: State, id: string)
    requires Reachable(mt, t0, s) && id in s.rows && s.rows[id].merge.Some?
    ensures var row, m := s.rows[id], s.rows[id].merge.value;
            && m.parents != []
            && (match row.base
                case None => |m.parents| == 1 && m.tree == Last(m.parents).tree
                case Some(b) => m.parents == [b, Last(m.parents)] && mt(b, Last(m.parents)) == Clean(m.tree))
            && m.message == "mad-trellis: integrate " + row.branch + "\n\nintegration-id: " + id
            && m.date * 1_000_000_000 <= row.createdAt < (m.date + 1) * 1_000_000_000
  {
    assert RowInv(mt, s.trunk, id, s.rows[id]) by { ReachableInv(mt, t0, s); }
    TwoParents(mt, id, s.rows[id], s.rows[id].merge.value);
  }

  /** Promoted is sound, and it stays true and recorded through any number of later steps. */
  lemma PromotedIsSoundAndStable(mt: MergeTree, t0: Option<Commit>, s: State, ls: seq<Label>, id: string)
    requires Reachable(mt, t0, s) && id in s.rows && s.rows[id].state == Promoted
    ensures var t := Run(mt, s, ls);
            id in t.rows && t.rows[id] == s.rows[id] && Landed(t.rows[id], t.trunk)
  {
    ReachableEvolves(mt, t0, s, ls);
    assert RowInv(mt, Run(mt, s, ls).trunk, id, s.rows[id]);
  }

  /** A terminal row never changes again, and a recorded (base, merge) pair is the pair for good. */
  lemma RecordedForGood(mt: MergeTree, t0: Option<Commit>, s: State, ls: seq<Label>, id: string)
    requires Reachable(mt, t0, s) && id in s.rows
    ensures var t := Run(mt, s, ls);
            && id in t.rows
            && (s.rows[id].state.Terminal() ==> t.rows[id] == s.rows[id])
            && (s.rows[id].merge.Some? ==> t.rows[id].merge == s.rows[id].merge && t.rows[id].base == s.rows[id].base)
  {
    ReachableEvolves(mt, t0, s, ls);
  }

  /**
   Two promotes of one id build the same commit exactly when they read the same tip and the same
   branch commit: the pinned identity and date do not make them agree across an advance.
   */
  lemma MergesOfOneIdAgree(mt: MergeTree, id: string, rec: Row, tip1: Option<Commit>, source1: Commit, tree1: string,
                           tip2: Option<Commit>, source2: Commit, tree2: string)
    requires MergesTo(mt, tip1, source1, tree1) && MergesTo(mt, tip2, source2, tree2)
    ensures MergeFor(id, rec, tip1, source1, tree1) == MergeFor(id, rec, tip2, source2, tree2)
            <==> tip1 == tip2 && source1 == source2
  {
    var m1, m2 := MergeFor(id, rec, tip1, source1, tree1), MergeFor(id, rec, tip2, source2, tree2);
    if m1.parents == m2.parents {
      assert |m1.parents| == |m2.parents| && Last(m1.parents) == source1 && Last(m2.parents) == source2;
      assert tip1.Some? <==> |m1.parents| == 2;
      if tip1.Some? {
        assert m1.parents[0] == tip1.value && m2.parents[0] == tip2.value;
      }
    }
  }
}
