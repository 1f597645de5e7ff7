/**
 Single calls of the promote machine: what one call does when it runs alone, statement
 by statement. The integrator object is shown to follow these runs.
 */
module TrunkCall {
  import opened Basics
  import opened Git
  import opened TrunkMachine
  import opened TrunkSafety
  import opened TrunkSerial

  /** The rows after Abort: a live row becomes promoted if its merge is in the trunk and aborted if not. */
  function AbortedRows(rows: map<string, Row>, trunk: Option<Commit>, id: string): map<string, Row> {
    if id in rows && !rows[id].state.Terminal() then
      rows[id := rows[id].(state := if Landed(rows[id], trunk) then Promoted else Aborted)]
    else rows
  }

  // ---- runs of a single call -------------------------------------------------------

  predicate OwnSteps(ls: seq<Label>) {
    forall l | l in ls :: (l.Tick? || l.Die?) && l.call == 0
  }

  /** t is reached from s by steps of call 0 alone. */
  ghost predicate CallRun(mt: MergeTree, s: State, t: State) {
    exists ls :: OwnSteps(ls) && Run(mt, s, ls) == t
  }

  /** One whole call of op, from its beginning to its return or death. */
  ghost predicate WholeCall(mt: MergeTree, s: State, session: string, id: string, op: Op, t: State) {
    t.calls == map[] && CallRun(mt, Step(mt, s, Begin(0, session, id, op)), t)
  }

  lemma CallRunRefl(mt: MergeTree, s: State)
    ensures CallRun(mt, s, s)
  {
    assert OwnSteps([]) && Run(mt, s, []) == s;
  }

  lemma CallRunStep(mt: MergeTree, s: State, t: State, l: Label)
    requires CallRun(mt, s, t) && (l.Tick? || l.Die?) && l.call == 0
    ensures CallRun(mt, s, Step(mt, t, l))
  {
    var ls :| OwnSteps(ls) && Run(mt, s, ls) == t;
    assert Front(ls + [l]) == ls;
    assert OwnSteps(ls + [l]) && Run(mt, s, ls + [l]) == Step(mt, t, l);
  }

  lemma OwnStepsAreSerial(mt: MergeTree, s: State, ls: seq<Label>)
    requires OwnSteps(ls)
    ensures CleanRun(mt, s, ls) && SerialRun(mt, s, ls)
  {
    forall k | 0 <= k < |ls|
      ensures CleanLabel(Run(mt, s, ls[..k]), ls[k]) && SerialLabel(Run(mt, s, ls[..k]), ls[k])
    {
      assert ls[k] in ls;
    }
  }

  /** A whole call keeps every invariant of the machine and the agreement of serialized calls. */
  lemma WholeCallKeeps(mt: MergeTree, t0: Option<Commit>, s: State, session: string, id: string, op: Op, t: State)
    requires Inv(mt, t0, s) && Serial(s) && CleanBranches(s) && s.calls == map[]
    requires WholeCall(mt, s, session, id, op, t)
    ensures Inv(mt, t0, t) && Evolves(s, t) && Serial(t) && CleanBranches(t)
  {
    var b := Begin(0, session, id, op);
    var s1 := Step(mt, s, b);
    StepKeeps(mt, t0, s, b);
    SerialStep(mt, t0, s, b);
    var ls :| OwnSteps(ls) && Run(mt, s1, ls) == t;
    OwnStepsAreSerial(mt, s1, ls);
    RunKeeps(mt, t0, s1, ls);
    SerialRunsAgree(mt, t0, s1, ls);
    EvolvesTransitive(s, s1, t);
  }

  // ---- one statement of a call that runs alone -----------------------------------------

  /** Durable state d with the one call about to execute pc. */
  function Solo(d: State, session: string, id: string, pc: Pc): State {
    d.(calls := map[0 := Call(session, id, pc)])
  }

  lemma Ticked(mt: MergeTree, s: State, d: State, session: string, id: string, pc: Pc, ok: bool, now: int, t: State)
    requires CallRun(mt, s, Solo(d, session, id, pc)) && Advance(mt, Solo(d, session, id, pc), 0, ok, now) == t
    ensures CallRun(mt, s, t)
  {
    CallRunStep(mt, s, Solo(d, session, id, pc), Tick(0, ok, now));
  }

  lemma DiesHere(mt: MergeTree, s: State, d: State, session: string, id: string, pc: Pc)
    requires CallRun(mt, s, Solo(d, session, id, pc)) && d.calls == map[]
    ensures CallRun(mt, s, d)
  {
    CallRunStep(mt, s, Solo(d, session, id, pc), Die(0));
    assert End(Solo(d, session, id, pc), 0) == d;
  }

  /** The statement UPDATE ... WHERE state = from that ends the call at pc. */
  predicate CasPc(pc: Pc, from: RowState, to: RowState) {
    || ((pc.ReconcileCas? || pc.LandedCas? || pc.FinalCas?) && from == Validating && to == Promoted)
    || (pc.StaleCas? && from == Validating && to == Aborted)
    || (pc.RejectCas? && from == Received && to == Aborted)
    || (pc.AbortCas? && pc.rec.state == from && pc.to == to)
  }

  lemma CasAdvances(mt: MergeTree, x: State, pc: Pc, from: RowState, to: RowState)
    requires 0 in x.calls && x.calls[0].pc == pc && CasPc(pc, from, to)
    ensures Advance(mt, x, 0, true, 0) == CasEnd(x, 0, from, to)
  {
  }

  lemma TickCas(mt: MergeTree, s: State, d: State, session: string, id: string, pc: Pc, from: RowState, to: RowState)
    requires CallRun(mt, s, Solo(d, session, id, pc)) && d.calls == map[] && CasPc(pc, from, to)
    requires id in d.rows && d.rows[id].state == from
    ensures CallRun(mt, s, WriteRow(d, id, d.rows[id].(state := to)))
  {
    var x := Solo(d, session, id, pc);
    CasAdvances(mt, x, pc, from, to);
    assert CasEnd(x, 0, from, to) == WriteRow(d, id, d.rows[id].(state := to));
    Ticked(mt, s, d, session, id, pc, true, 0, CasEnd(x, 0, from, to));
  }

  lemma TickGoto(mt: MergeTree, s: State, d: State, session: string, id: string, pc: Pc, pc': Pc, ok: bool)
    requires CallRun(mt, s, Solo(d, session, id, pc))
    requires Advance(mt, Solo(d, session, id, pc), 0, ok, 0) == Goto(Solo(d, session, id, pc), 0, pc')
    ensures CallRun(mt, s, Solo(d, session, id, pc'))
  {
    assert Goto(Solo(d, session, id, pc), 0, pc') == Solo(d, session, id, pc');
    Ticked(mt, s, d, session, id, pc, ok, 0, Solo(d, session, id, pc'));
  }

  lemma TickLease(mt: MergeTree, s: State, d: State, session: string, id: string, granted: bool)
    requires CallRun(mt, s, Solo(d, session, id, AcquireLease)) && d.calls == map[]
    ensures granted ==> CallRun(mt, s, Solo(d, session, id, Reload))
    ensures !granted ==> CallRun(mt, s, d)
  {
    if granted {
      TickGoto(mt, s, d, session, id, AcquireLease, Reload, true);
    } else {
      assert End(Solo(d, session, id, AcquireLease), 0) == d;
      Ticked(mt, s, d, session, id, AcquireLease, false, 0, d);
    }
  }

  lemma TickLandedTip(mt: MergeTree, s: State, d: State, session: string, id: string, rec: Row)
    requires CallRun(mt, s, Solo(d, session, id, LandedTip(rec)))
    ensures CallRun(mt, s, Solo(d, session, id, if Landed(rec, d.trunk) then LandedCas(rec) else NowTip(rec)))
  {
    TickGoto(mt, s, d, session, id, LandedTip(rec), if Landed(rec, d.trunk) then LandedCas(rec) else NowTip(rec), true);
  }

  lemma TickReload(mt: MergeTree, s: State, d: State, session: string, id: string)
    requires CallRun(mt, s, Solo(d, session, id, Reload)) && id in d.rows
    ensures var rec := d.rows[id];
            CallRun(mt, s, Solo(d, session, id, if Landed(rec, d.trunk) then LandedCas(rec) else NowTip(rec)))
  {
    var rec := d.rows[id];
    TickGoto(mt, s, d, session, id, Reload, LandedTip(rec), true);
    TickLandedTip(mt, s, d, session, id, rec);
  }

  lemma TickNowTip(mt: MergeTree, s: State, d: State, session: string, id: string, rec: Row)
    requires CallRun(mt, s, Solo(d, session, id, NowTip(rec)))
    ensures CallRun(mt, s, Solo(d, session, id, if d.trunk == rec.base then UpdateRef(rec) else StaleCas(rec)))
  {
    TickGoto(mt, s, d, session, id, NowTip(rec), if d.trunk == rec.base then UpdateRef(rec) else StaleCas(rec), true);
  }

  lemma UpdateAdvances(mt: MergeTree, d: State, session: string, id: string, rec: Row)
    requires rec.merge.Some? && d.trunk == rec.base
    ensures Advance(mt, Solo(d, session, id, UpdateRef(rec)), 0, true, 0)
            == Solo(MoveTrunk(d, Land(id, rec.base, rec.merge.value)), session, id, FinalCas(rec))
  {
    var m := MoveTrunk(d, Land(id, rec.base, rec.merge.value));
    assert Goto(MoveTrunk(Solo(d, session, id, UpdateRef(rec)), Land(id, rec.base, rec.merge.value)), 0, FinalCas(rec))
           == Solo(m, session, id, FinalCas(rec));
  }

  lemma TickUpdateRef(mt: MergeTree, s: State, d: State, session: string, id: string, rec: Row)
    requires CallRun(mt, s, Solo(d, session, id, UpdateRef(rec))) && rec.merge.Some? && d.trunk == rec.base
    ensures CallRun(mt, s, Solo(MoveTrunk(d, Land(id, rec.base, rec.merge.value)), session, id, FinalCas(rec)))
  {
    UpdateAdvances(mt, d, session, id, rec);
    Ticked(mt, s, d, session, id, UpdateRef(rec), true, 0,
           Solo(MoveTrunk(d, Land(id, rec.base, rec.merge.value)), session, id, FinalCas(rec)));
  }

  lemma TickGate(mt: MergeTree, s: State, d: State, session: string, id: string, rec: Row)
    requires CallRun(mt, s, Solo(d, session, id, ReadTip(rec))) && d.calls == map[]
    ensures if rec.branch !in d.branches then CallRun(mt, s, Solo(d, session, id, RejectCas(rec)))
            else match Validate(mt, d.trunk, d.branches[rec.branch])
                 case Pass(tree) =>
                   CallRun(mt, s, Solo(d, session, id, WriteCommit(rec, d.trunk, d.branches[rec.branch], tree)))
                 case Reject(_) => CallRun(mt, s, Solo(d, session, id, RejectCas(rec)))
                 case GateError => CallRun(mt, s, d)
  {
    TickGoto(mt, s, d, session, id, ReadTip(rec), Resolve(rec, d.trunk), true);
    if rec.branch !in d.branches {
      TickGoto(mt, s, d, session, id, Resolve(rec, d.trunk), RejectCas(rec), true);
    } else {
      var source := d.branches[rec.branch];
      TickGoto(mt, s, d, session, id, Resolve(rec, d.trunk), RunGate(rec, d.trunk, source), true);
      TickRunGate(mt, s, d, session, id, rec, d.trunk, source);
    }
  }

  lemma TickRunGate(mt: MergeTree, s: State, d: State, session: string, id: string, rec: Row, tip: Option<Commit>,
                    source: Commit)
    requires CallRun(mt, s, Solo(d, session, id, RunGate(rec, tip, source))) && d.calls == map[]
    ensures match Validate(mt, tip, source)
            case Pass(tree) => CallRun(mt, s, Solo(d, session, id, WriteCommit(rec, tip, source, tree)))
            case Reject(_) => CallRun(mt, s, Solo(d, session, id, RejectCas(rec)))
            case GateError => CallRun(mt, s, d)
  {
    var pc := RunGate(rec, tip, source);
    match Validate(mt, tip, source)
    case Pass(tree) => TickGoto(mt, s, d, session, id, pc, WriteCommit(rec, tip, source, tree), true);
    case Reject(_) => TickGoto(mt, s, d, session, id, pc, RejectCas(rec), true);
    case GateError =>
      assert End(Solo(d, session, id, pc), 0) == d;
      Ticked(mt, s, d, session, id, pc, true, 0, d);
  }

  lemma TickWrite(mt: MergeTree, s: State, d: State, session: string, id: string, rec: Row, source: Commit,
                  made: Commit)
    requires CallRun(mt, s, Solo(d, session, id, SetValidating(rec, d.trunk, made)))
    requires id in d.rows && d.rows[id] == rec && rec.state == Received
    ensures CallRun(mt, s, Solo(WriteRow(d, id, MarkValidating(rec, d.trunk, made)), session, id, AcquireLease))
  {
    var pc, w := SetValidating(rec, d.trunk, made), WriteRow(d, id, MarkValidating(rec, d.trunk, made));
    assert ValidateStep(mt, Solo(d, session, id, pc), 0) == Solo(w, session, id, AcquireLease) by {
      assert Goto(WriteRow(Solo(d, session, id, pc), id, MarkValidating(rec, d.trunk, made)), 0, AcquireLease)
             == Solo(w, session, id, AcquireLease);
    }
    Ticked(mt, s, d, session, id, pc, true, 0, Solo(w, session, id, AcquireLease));
  }

  lemma TickRecord(mt: MergeTree, s: State, d: State, session: string, id: string, rec: Row, source: Commit,
                   tree: string)
    requires CallRun(mt, s, Solo(d, session, id, WriteCommit(rec, d.trunk, source, tree)))
    requires id in d.rows && d.rows[id] == rec && rec.state == Received
    ensures var made := MergeFor(id, rec, d.trunk, source, tree);
            CallRun(mt, s, Solo(WriteRow(d, id, MarkValidating(rec, d.trunk, made)), session, id, AcquireLease))
  {
    var made := MergeFor(id, rec, d.trunk, source, tree);
    TickGoto(mt, s, d, session, id, WriteCommit(rec, d.trunk, source, tree), SetValidating(rec, d.trunk, made), true);
    TickWrite(mt, s, d, session, id, rec, source, made);
  }

  lemma TickReconcile(mt: MergeTree, s: State, d: State, session: string, id: string, rec: Row, promoting: bool)
    requires CallRun(mt, s, Solo(d, session, id, ReconcileTip(rec, promoting))) && d.calls == map[]
    ensures if Landed(rec, d.trunk) then CallRun(mt, s, Solo(d, session, id, ReconcileCas(rec)))
            else if promoting then CallRun(mt, s, Solo(d, session, id, AcquireLease))
            else CallRun(mt, s, d)
  {
    var pc := ReconcileTip(rec, promoting);
    if Landed(rec, d.trunk) {
      TickGoto(mt, s, d, session, id, pc, ReconcileCas(rec), true);
    } else if promoting {
      TickGoto(mt, s, d, session, id, pc, AcquireLease, true);
    } else {
      assert End(Solo(d, session, id, pc), 0) == d;
      Ticked(mt, s, d, session, id, pc, true, 0, d);
    }
  }

  /** The first read of Promote, Status or Abort. */
  lemma TickFirstRead(mt: MergeTree, s: State, d: State, session: string, id: string, pc: Pc)
    requires CallRun(mt, s, Solo(d, session, id, pc)) && d.calls == map[]
    requires pc.PromoteGet? || pc.StatusGet? || pc.AbortGet?
    ensures if id !in d.rows || d.rows[id].state.Terminal() then CallRun(mt, s, d)
            else if pc.AbortGet? then CallRun(mt, s, Solo(d, session, id, AbortLandedTip(d.rows[id])))
            else if d.rows[id].state == Validating then
              CallRun(mt, s, Solo(d, session, id, ReconcileTip(d.rows[id], pc.PromoteGet?)))
            else if pc.PromoteGet? then CallRun(mt, s, Solo(d, session, id, ReadTip(d.rows[id])))
            else CallRun(mt, s, d)
  {
    assert End(Solo(d, session, id, pc), 0) == d;
    if id !in d.rows || d.rows[id].state.Terminal() || (pc.StatusGet? && d.rows[id].state != Validating) {
      Ticked(mt, s, d, session, id, pc, true, 0, d);
    } else if pc.AbortGet? {
      TickGoto(mt, s, d, session, id, pc, AbortLandedTip(d.rows[id]), true);
    } else if d.rows[id].state == Validating {
      TickGoto(mt, s, d, session, id, pc, ReconcileTip(d.rows[id], pc.PromoteGet?), true);
    } else {
      TickGoto(mt, s, d, session, id, pc, ReadTip(d.rows[id]), true);
    }
  }

  lemma TickAbortCas(mt: MergeTree, s: State, d: State, session: string, id: string, rec: Row)
    requires CallRun(mt, s, Solo(d, session, id, AbortLandedTip(rec))) && d.calls == map[]
    requires id in d.rows && d.rows[id] == rec && !rec.state.Terminal()
    ensures CallRun(mt, s, WriteRow(d, id, rec.(state := if Landed(rec, d.trunk) then Promoted else Aborted)))
  {
    var to := if Landed(rec, d.trunk) then Promoted else Aborted;
    TickGoto(mt, s, d, session, id, AbortLandedTip(rec), AbortCas(rec, to), true);
    TickCas(mt, s, d, session, id, AbortCas(rec, to), rec.state, to);
  }

  lemma TickAbort(mt: MergeTree, s: State, d: State, session: string, id: string)
    requires CallRun(mt, s, Solo(d, session, id, AbortGet)) && d.calls == map[]
    ensures CallRun(mt, s, d.(rows := AbortedRows(d.rows, d.trunk, id)))
  {
    TickFirstRead(mt, s, d, session, id, AbortGet);
    if id in d.rows && !d.rows[id].state.Terminal() {
      TickAbortCas(mt, s, d, session, id, d.rows[id]);
    } else {
      assert d.(rows := AbortedRows(d.rows, d.trunk, id)) == d;
    }
  }

  lemma TickAbortAs(mt: MergeTree, s: State, d: State, session: string, id: string)
    requires CallRun(mt, s, Solo(d, session, id, AbortAsGet)) && d.calls == map[]
    ensures if id !in d.rows then CallRun(mt, s, d)
            else if d.rows[id].state.Terminal() || Landed(d.rows[id], d.trunk) || d.rows[id].holder == session then
              CallRun(mt, s, Solo(d, session, id, AbortGet))
            else CallRun(mt, s, d)
  {
    var pc := AbortAsGet;
    assert End(Solo(d, session, id, pc), 0) == d;
    if id !in d.rows {
      Ticked(mt, s, d, session, id, pc, true, 0, d);
    } else if d.rows[id].state.Terminal() {
      TickGoto(mt, s, d, session, id, pc, AbortGet, true);
    } else {
      var rec := d.rows[id];
      TickGoto(mt, s, d, session, id, pc, AbortAsTip(rec), true);
      TickAbortAsTip(mt, s, d, session, id, rec);
    }
  }

  lemma TickAbortAsTip(mt: MergeTree, s: State, d: State, session: string, id: string, rec: Row)
    requires CallRun(mt, s, Solo(d, session, id, AbortAsTip(rec))) && d.calls == map[]
    ensures if Landed(rec, d.trunk) || rec.holder == session then CallRun(mt, s, Solo(d, session, id, AbortGet))
            else CallRun(mt, s, d)
  {
    var pc := AbortAsTip(rec);
    if Landed(rec, d.trunk) || rec.holder == session {
      TickGoto(mt, s, d, session, id, pc, AbortGet, true);
    } else {
      assert End(Solo(d, session, id, pc), 0) == d;
      Ticked(mt, s, d, session, id, pc, true, 0, d);
    }
  }

  lemma TickSubmit(mt: MergeTree, s: State, d: State, session: string, id: string, ref: string, now: int)
    requires CallRun(mt, s, Solo(d, session, id, SubmitResolve(ref))) && d.calls == map[]
    ensures if ref !in d.branches || id in d.rows then CallRun(mt, s, d)
            else CallRun(mt, s, WriteRow(d, id, Row(ref, session, d.trunk, None, Received, false, now)))
  {
    assert End(Solo(d, session, id, SubmitResolve(ref)), 0) == d;
    if ref !in d.branches {
      Ticked(mt, s, d, session, id, SubmitResolve(ref), true, 0, d);
    } else {
      TickGoto(mt, s, d, session, id, SubmitResolve(ref), SubmitTip(ref), true);
      TickGoto(mt, s, d, session, id, SubmitTip(ref), SubmitInsert(ref, d.trunk), true);
      TickInsert(mt, s, d, session, id, ref, now);
    }
  }

  lemma TickInsert(mt: MergeTree, s: State, d: State, session: string, id: string, ref: string, now: int)
    requires CallRun(mt, s, Solo(d, session, id, SubmitInsert(ref, d.trunk))) && d.calls == map[]
    ensures if id in d.rows then CallRun(mt, s, d)
            else CallRun(mt, s, WriteRow(d, id, Row(ref, session, d.trunk, None, Received, false, now)))
  {
    var pc := SubmitInsert(ref, d.trunk);
    if id in d.rows {
      assert End(Solo(d, session, id, pc), 0) == d;
      Ticked(mt, s, d, session, id, pc, true, now, d);
    } else {
      var w := WriteRow(d, id, Row(ref, session, d.trunk, None, Received, false, now));
      assert End(WriteRow(Solo(d, session, id, pc), id, w.rows[id]), 0) == w;
      Ticked(mt, s, d, session, id, pc, true, now, w);
    }
  }

  /** The state just after a call on an idle store has begun. */
  ghost function Began(mt: MergeTree, d: State, session: string, id: string, op: Op): (s: State)
    requires d.calls == map[] && (op.Submit? ==> ValidRef(op.branch))
    ensures s == Step(mt, d, Begin(0, session, id, op))
    ensures CallRun(mt, s, Solo(d, session, id, FirstPc(op)))
  {
    var s := Step(mt, d, Begin(0, session, id, op));
    assert s == Solo(d, session, id, FirstPc(op));
    CallRunRefl(mt, s);
    s
  }
}
