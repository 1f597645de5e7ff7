/**
 The promote protocol under free interleaving. Every call is a small program whose
 steps are single store statements and single git commands; any call may take its
 next step at any time, die between two steps, or find the lease granted although
 another promoter is still past it. Ancestry is decided on immutable objects, so
 reading the tip and testing ancestry against that tip is one step.
 */
module TrunkMachine {
  import opened Basics
  import opened Git

  datatype RowState = Received | Validating | Promoted | Aborted {
    predicate Terminal() { Promoted? || Aborted? }
  }

  /** One durable integration row; an absent base is an unborn trunk, an absent merge the empty string. */
  datatype Row = Row(branch: string, holder: string, base: Option<Commit>, merge: Option<Commit>,
                     state: RowState, gateOK: bool, createdAt: int)

  datatype Op = Submit(branch: string) | Promote | Abort | AbortAs | Status

  /** The next statement of a call, with the locals it still needs. */
  datatype Pc =
    | SubmitResolve(ref: string)
    | SubmitTip(ref: string)
    | SubmitInsert(ref: string, base: Option<Commit>)
    | PromoteGet
    | ReconcileTip(rec: Row, promoting: bool)
    | ReconcileCas(rec: Row)
    | ReadTip(rec: Row)
    | Resolve(rec: Row, tip: Option<Commit>)
    | RejectCas(rec: Row)
    | RunGate(rec: Row, tip: Option<Commit>, source: Commit)
    | WriteCommit(rec: Row, tip: Option<Commit>, source: Commit, tree: string)
    | SetValidating(rec: Row, tip: Option<Commit>, made: Commit)
    | Reget
    | AcquireLease
    | Reload
    | LandedTip(rec: Row)
    | LandedCas(rec: Row)
    | NowTip(rec: Row)
    | StaleCas(rec: Row)
    | UpdateRef(rec: Row)
    | FinalCas(rec: Row)
    | AbortGet
    | AbortLandedTip(rec: Row)
    | AbortCas(rec: Row, to: RowState)
    | AbortAsGet
    | AbortAsTip(rec: Row)
    | StatusGet
  {
    /** The call holds a row image it read earlier. */
    predicate HasRec() {
      || ReconcileTip? || ReconcileCas? || ReadTip? || Resolve? || RejectCas? || RunGate? || WriteCommit?
      || SetValidating? || LandedTip? || LandedCas? || NowTip? || StaleCas? || UpdateRef? || FinalCas?
      || AbortLandedTip? || AbortCas? || AbortAsTip?
    }

    predicate Submitting() { SubmitResolve? || SubmitTip? || SubmitInsert? }

    predicate Reconciling() { PromoteGet? || StatusGet? || ReconcileTip? || ReconcileCas? }

    predicate ValidatingPhase() {
      ReadTip? || Resolve? || RejectCas? || RunGate? || WriteCommit? || SetValidating? || Reget?
    }

    predicate Landing() {
      AcquireLease? || Reload? || LandedTip? || LandedCas? || NowTip? || StaleCas? || UpdateRef? || FinalCas?
    }

    predicate Aborting() { AbortGet? || AbortLandedTip? || AbortCas? || AbortAsGet? || AbortAsTip? }

    /** The call has seen the row's merge in the trunk. */
    predicate SawLanded() {
      ReconcileCas? || LandedCas? || FinalCas? || (AbortCas? && to == Promoted)
    }
  }

  datatype Call = Call(session: string, id: string, pc: Pc)

  /** One successful advance of the trunk ref. */
  datatype Landing = Land(id: string, base: Option<Commit>, merge: Commit)

  /** rows, trunk and branches are durable; log is a history variable that no step reads. */
  datatype State = State(rows: map<string, Row>, trunk: Option<Commit>, branches: map<string, Commit>,
                         calls: map<nat, Call>, log: seq<Landing>)

  datatype Label =
    | Begin(call: nat, session: string, id: string, op: Op)
    | Tick(call: nat, ok: bool, now: int)   // ok: the lease is granted, git can be asked
    | Die(call: nat)
    | SetBranch(ref: string, target: Commit)
    | DropBranch(ref: string)

  function FirstPc(op: Op): Pc {
    match op
    case Submit(branch) => SubmitResolve(branch)
    case Promote => PromoteGet
    case Abort => AbortGet
    case AbortAs => AbortAsGet
    case Status => StatusGet
  }

  function Landed(rec: Row, trunk: Option<Commit>): bool {
    rec.merge.Some? && InHistory(rec.merge.value, trunk)
  }

  function Goto(s: State, c: nat, pc: Pc): State
    requires c in s.calls
  {
    s.(calls := s.calls[c := s.calls[c].(pc := pc)])
  }

  function End(s: State, c: nat): State {
    s.(calls := s.calls - {c})
  }

  function WriteRow(s: State, id: string, row: Row): State {
    s.(rows := s.rows[id := row])
  }

  function MoveTrunk(s: State, l: Landing): State {
    s.(trunk := Some(l.merge), log := s.log + [l])
  }

  function MarkValidating(row: Row, base: Option<Commit>, merge: Commit): Row {
    row.(state := Validating, base := base, merge := Some(merge), gateOK := true)
  }

  /** The merge commit of an integration: everything in it is pinned by the row, the tip and the branch. */
  function MergeFor(id: string, rec: Row, tip: Option<Commit>, source: Commit, tree: string): Commit {
    CommitMerge(tree, tip, source, MergeMessage(id, rec.branch), rec.createdAt)
  }

  /** UPDATE integrations SET state = to WHERE id = id AND state = from; the call then returns. */
  function CasEnd(s: State, c: nat, from: RowState, to: RowState): State
    requires c in s.calls
  {
    var id := s.calls[c].id;
    if id in s.rows && s.rows[id].state == from then End(WriteRow(s, id, s.rows[id].(state := to)), c)
    else End(s, c)
  }

  function Step(mt: MergeTree, s: State, l: Label): State {
    match l
    case Begin(c, session, id, op) =>
      if c in s.calls || (op.Submit? && !ValidRef(op.branch)) then s
      else s.(calls := s.calls[c := Call(session, id, FirstPc(op))])
    case Tick(c, ok, now) => if c in s.calls then Advance(mt, s, c, ok, now) else s
    case Die(c) => End(s, c)
    case SetBranch(ref, target) => s.(branches := s.branches[ref := target])
    case DropBranch(ref) => s.(branches := s.branches - {ref})
  }

  /** The next statement of call c. */
  function Advance(mt: MergeTree, s: State, c: nat, ok: bool, now: int): State
    requires c in s.calls
  {
    var pc := s.calls[c].pc;
    if pc.Submitting() then SubmitStep(s, c, now)
    else if pc.Reconciling() then ReconcileStep(s, c, ok)
    else if pc.ValidatingPhase() then ValidateStep(mt, s, c)
    else if pc.Landing() then LandStep(s, c, ok)
    else AbortStep(s, c, ok)
  }

  function SubmitStep(s: State, c: nat, now: int): State
    requires c in s.calls && s.calls[c].pc.Submitting()
  {
    var id := s.calls[c].id;
    match s.calls[c].pc
    case SubmitResolve(ref) =>
      if ref in s.branches then Goto(s, c, SubmitTip(ref)) else End(s, c)
    case SubmitTip(ref) => Goto(s, c, SubmitInsert(ref, s.trunk))
    case SubmitInsert(ref, base) =>
      if id in s.rows then End(s, c)
      else End(WriteRow(s, id, Row(ref, s.calls[c].session, base, None, Received, false, now)), c)
  }

  /** The first read of Promote and Status, and the reconciliation of a validating row. */
  function ReconcileStep(s: State, c: nat, ok: bool): State
    requires c in s.calls && s.calls[c].pc.Reconciling()
  {
    var id := s.calls[c].id;
    match s.calls[c].pc
    case PromoteGet =>
      if id !in s.rows || s.rows[id].state.Terminal() then End(s, c)
      else if s.rows[id].state == Validating then Goto(s, c, ReconcileTip(s.rows[id], true))
      else Goto(s, c, ReadTip(s.rows[id]))
    case StatusGet =>
      if id in s.rows && s.rows[id].state == Validating then Goto(s, c, ReconcileTip(s.rows[id], false))
      else End(s, c)
    case ReconcileTip(rec, promoting) =>
      if ok && Landed(rec, s.trunk) then Goto(s, c, ReconcileCas(rec))
      else if promoting then Goto(s, c, AcquireLease)
      else End(s, c)
    case ReconcileCas(rec) => CasEnd(s, c, Validating, Promoted)
  }

  /** received -> validating: gate, merge commit object, and the row in one statement. */
  function ValidateStep(mt: MergeTree, s: State, c: nat): State
    requires c in s.calls && s.calls[c].pc.ValidatingPhase()
  {
    var id := s.calls[c].id;
    match s.calls[c].pc
    case ReadTip(rec) => Goto(s, c, Resolve(rec, s.trunk))
    case Resolve(rec, tip) =>
      if rec.branch in s.branches then Goto(s, c, RunGate(rec, tip, s.branches[rec.branch]))
      else Goto(s, c, RejectCas(rec))
    case RejectCas(rec) => CasEnd(s, c, Received, Aborted)
    case RunGate(rec, tip, source) =>
      (match Validate(mt, tip, source)
       case Pass(tree) => Goto(s, c, WriteCommit(rec, tip, source, tree))
       case Reject(_) => Goto(s, c, RejectCas(rec))
       case GateError => End(s, c))
    case WriteCommit(rec, tip, source, tree) =>
      Goto(s, c, SetValidating(rec, tip, MergeFor(id, rec, tip, source, tree)))
    case SetValidating(rec, tip, made) =>
      if id in s.rows && s.rows[id].state == Received then
        Goto(WriteRow(s, id, MarkValidating(s.rows[id], tip, made)), c, AcquireLease)
      else Goto(s, c, Reget)
    case Reget => Goto(s, c, AcquireLease)
  }

  /** From the lease to the compare-and-swap on the ref. */
  function LandStep(s: State, c: nat, ok: bool): State
    requires c in s.calls && s.calls[c].pc.Landing()
  {
    var id := s.calls[c].id;
    match s.calls[c].pc
    case AcquireLease => if ok then Goto(s, c, Reload) else End(s, c)
    case Reload => if id in s.rows then Goto(s, c, LandedTip(s.rows[id])) else End(s, c)
    case LandedTip(rec) =>
      if Landed(rec, s.trunk) then Goto(s, c, LandedCas(rec)) else Goto(s, c, NowTip(rec))
    case LandedCas(rec) => CasEnd(s, c, Validating, Promoted)
    case NowTip(rec) =>
      if s.trunk == rec.base then Goto(s, c, UpdateRef(rec)) else Goto(s, c, StaleCas(rec))
    case StaleCas(rec) => CasEnd(s, c, Validating, Aborted)
    case UpdateRef(rec) =>
      if rec.merge.Some? && s.trunk == rec.base then
        Goto(MoveTrunk(s, Land(id, rec.base, rec.merge.value)), c, FinalCas(rec))
      else End(s, c)
    case FinalCas(rec) => CasEnd(s, c, Validating, Promoted)
  }

  function AbortStep(s: State, c: nat, ok: bool): State
    requires c in s.calls && s.calls[c].pc.Aborting()
  {
    var id := s.calls[c].id;
    match s.calls[c].pc
    case AbortGet =>
      if id !in s.rows || s.rows[id].state.Terminal() then End(s, c)
      else Goto(s, c, AbortLandedTip(s.rows[id]))
    case AbortLandedTip(rec) =>
      Goto(s, c, AbortCas(rec, if Landed(rec, s.trunk) then Promoted else Aborted))
    case AbortCas(rec, to) => CasEnd(s, c, rec.state, to)
    case AbortAsGet =>
      if id !in s.rows then End(s, c)
      else if s.rows[id].state.Terminal() then Goto(s, c, AbortGet)
      else Goto(s, c, AbortAsTip(s.rows[id]))
    case AbortAsTip(rec) =>
      if (ok && Landed(rec, s.trunk)) || rec.holder == s.calls[c].session then Goto(s, c, AbortGet)
      else End(s, c)
  }

  /** The state after a whole schedule. */
  function Run(mt: MergeTree, s: State, ls: seq<Label>): State {
    if ls == [] then s else Step(mt, Run(mt, s, Front(ls)), Last(ls))
  }

  /** A store just opened on a repository whose trunk is t0: no rows, no calls, nothing landed yet. */
  predicate Initial(s: State, t0: Option<Commit>) {
    s.rows == map[] && s.calls == map[] && s.log == [] && s.trunk == t0
  }

  lemma RunNext(mt: MergeTree, s: State, ls: seq<Label>, l: Label)
    ensures Run(mt, s, ls + [l]) == Step(mt, Run(mt, s, ls), l)
  {
    assert Front(ls + [l]) == ls;
  }

  lemma {:induction false} RunSplit(mt: MergeTree, s: State, xs: seq<Label>, ys: seq<Label>)
    ensures Run(mt, s, xs + ys) == Run(mt, Run(mt, s, xs), ys)
    decreases |ys|
  {
    if ys == [] {
      assert xs + ys == xs;
    } else {
      var f, l := Front(ys), Last(ys);
      RunSplit(mt, s, xs, f);
      RunNext(mt, s, xs + f, l);
      RunNext(mt, Run(mt, s, xs), f, l);
      assert ys == f + [l] && xs + ys == (xs + f) + [l];
    }
  }
}
