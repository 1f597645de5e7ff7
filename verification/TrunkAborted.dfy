/**
 When an aborted integration stays out of the trunk under free interleaving. Promote does not
 look at the row's state again once it is past its first read, so an abort that overtakes a
 promote in flight does not stop it. It can still land exactly while the trunk is at the
 recorded base and some promote of it is in flight whose gate, if still ahead, can pass.
 */
module TrunkAborted {
  import opened Basics
  import opened Git
  import opened TrunkMachine
  import opened TrunkSafety
  import opened TrunkSerial

  // ---- bases lie in the trunk's history --------------------------------------------------

  /** A base or tip that some call has read is part of the trunk's history. */
  predicate PastPc(trunk: Option<Commit>, pc: Pc) {
    && (pc.SubmitInsert? ==> HistoryKept(pc.base, trunk))
    && (pc.Resolve? || pc.RunGate? || pc.WriteCommit? || pc.SetValidating? ==> HistoryKept(pc.tip, trunk))
  }

  predicate BasesPast(s: State) {
    && (forall id | id in s.rows :: HistoryKept(s.rows[id].base, s.trunk))
    && (forall c | c in s.calls :: PastPc(s.trunk, s.calls[c].pc))
  }

  lemma PastKept(s: State, trunk: Option<Commit>)
    requires BasesPast(s) && HistoryKept(s.trunk, trunk)
    ensures forall id | id in s.rows :: HistoryKept(s.rows[id].base, trunk)
    ensures forall c | c in s.calls :: PastPc(trunk, s.calls[c].pc)
  {
    forall id | id in s.rows ensures HistoryKept(s.rows[id].base, trunk) {
      HistoryKeptTransitive(s.rows[id].base, s.trunk, trunk);
    }
    forall c | c in s.calls ensures PastPc(trunk, s.calls[c].pc) {
      var pc := s.calls[c].pc;
      if pc.SubmitInsert? { HistoryKeptTransitive(pc.base, s.trunk, trunk); }
      if pc.Resolve? || pc.RunGate? || pc.WriteCommit? || pc.SetValidating? {
        HistoryKeptTransitive(pc.tip, s.trunk, trunk);
      }
    }
  }

  lemma PastNextPc(mt: MergeTree, s: State, c: nat, ok: bool, now: int)
    requires c in s.calls && c in Advance(mt, s, c, ok, now).calls && PastPc(s.trunk, s.calls[c].pc)
    ensures PastPc(s.trunk, Advance(mt, s, c, ok, now).calls[c].pc)
  {
    var pc := s.calls[c].pc;
    if pc.Submitting() {
      assert PastPc(s.trunk, SubmitStep(s, c, now).calls[c].pc);
    } else if pc.ValidatingPhase() {
      assert PastPc(s.trunk, ValidateStep(mt, s, c).calls[c].pc);
    } else {
      OtherPhases(mt, s, c, ok, now);
      NotResolving(mt, s, c, ok, now);
    }
  }

  lemma NotResolving(mt: MergeTree, s: State, c: nat, ok: bool, now: int)
    requires c in s.calls && c in Advance(mt, s, c, ok, now).calls
    requires !s.calls[c].pc.Submitting() && !s.calls[c].pc.ValidatingPhase()
    ensures var pc := Advance(mt, s, c, ok, now).calls[c].pc; !pc.SubmitInsert? && !pc.Resolve?
  {
    var pc := s.calls[c].pc;
    if pc.Reconciling() {
      assert Advance(mt, s, c, ok, now) == ReconcileStep(s, c, ok);
    } else if pc.Landing() {
      assert Advance(mt, s, c, ok, now) == LandStep(s, c, ok);
    } else {
      assert Advance(mt, s, c, ok, now) == AbortStep(s, c, ok);
    }
  }

  /** A row's base is set by SubmitInsert and SetValidating and by nothing else. */
  lemma BaseSetOnce(mt: MergeTree, s: State, c: nat, ok: bool, now: int, id: string)
    requires c in s.calls && id in Advance(mt, s, c, ok, now).rows
    ensures var t, pc := Advance(mt, s, c, ok, now), s.calls[c].pc;
            || (id in s.rows && t.rows[id].base == s.rows[id].base)
            || (pc.SubmitInsert? && t.rows[id].base == pc.base)
            || (pc.SetValidating? && t.rows[id].base == pc.tip)
  {
  }

  lemma PastTick(mt: MergeTree, s: State, c: nat, ok: bool, now: int)
    requires BasesPast(s) && c in s.calls && Advance(mt, s, c, ok, now).trunk == s.trunk
    ensures BasesPast(Advance(mt, s, c, ok, now))
  {
    var t := Advance(mt, s, c, ok, now);
    TickOwnCallOnly(mt, s, c, ok, now);
    forall d | d in t.calls ensures PastPc(t.trunk, t.calls[d].pc) {
      if d == c { PastNextPc(mt, s, c, ok, now); }
    }
    forall id | id in t.rows ensures HistoryKept(t.rows[id].base, t.trunk) {
      BaseSetOnce(mt, s, c, ok, now, id);
      assert PastPc(s.trunk, s.calls[c].pc);
    }
  }

  lemma PastStep(mt: MergeTree, s: State, l: Label)
    requires BasesPast(s) && HistoryKept(s.trunk, Step(mt, s, l).trunk)
    ensures BasesPast(Step(mt, s, l))
  {
    if Step(mt, s, l).trunk != s.trunk {
      OnlyUpdateRefMoves(mt, s, l);
      PastKept(s, Step(mt, s, l).trunk);
    } else if l.Tick? && l.call in s.calls {
      PastTick(mt, s, l.call, l.ok, l.now);
    }
  }

  lemma {:induction false} PastRun(mt: MergeTree, t0: Option<Commit>, s: State, ls: seq<Label>)
    requires Inv(mt, t0, s) && BasesPast(s)
    ensures BasesPast(Run(mt, s, ls))
    decreases |ls|
  {
    if ls != [] {
      var t := Run(mt, s, Front(ls));
      PastRun(mt, t0, s, Front(ls));
      assert HistoryKept(t.trunk, Step(mt, t, Last(ls)).trunk) by {
        RunKeeps(mt, t0, s, Front(ls));
        StepKeeps(mt, t0, t, Last(ls));
      }
      PastStep(mt, t, Last(ls));
    }
  }

  /** In every reachable state recorded bases and tips read are part of the trunk's history. */
  lemma ReachablePast(mt: MergeTree, t0: Option<Commit>, s: State)
    requires Reachable(mt, t0, s)
    ensures BasesPast(s)
  {
    var s0: State, ls: seq<Label> :| Initial(s0, t0) && Run(mt, s0, ls) == s;
    InitialInv(mt, t0, s0);
    PastRun(mt, t0, s0, ls);
  }

  /** A base the trunk has left is left for good: the trunk only moves to larger commits. */
  lemma BaseLeftForGood(base: Option<Commit>, trunk: Option<Commit>, m: Commit)
    requires HistoryKept(base, trunk) && (trunk.Some? ==> m.parents != [] && m.parents[0] == trunk.value)
    ensures base != Some(m)
  {
    if trunk.Some? {
      SizeOfElement(m.parents, 0);
      if base == Some(m) { AncestorSmaller(m, trunk.value); }
    }
  }

  // ---- who can still land an aborted row ------------------------------------------------------

  /**
   A call that can still bring its aborted row, whose base the trunk is at, to the ref update:
   a promote past its first read, whose gate, if it is still ahead, some clean branch can pass.
   */
  ghost predicate CanReach(mt: MergeTree, trunk: Option<Commit>, pc: Pc) {
    match pc
    case ReconcileTip(_, promoting) => promoting
    case ReadTip(_) => true
    case Resolve(_, tip) => exists b :: CleanSource(trunk, b) && Validate(mt, tip, b).Pass?
    case RunGate(_, tip, source) => Validate(mt, tip, source).Pass?
    case WriteCommit(_, _, _, _) => true
    case SetValidating(_, _, _) => true
    case Reget => true
    case AcquireLease => true
    case Reload => true
    case LandedTip(rec) => rec.merge.Some?
    case NowTip(rec) => rec.merge.Some?
    case UpdateRef(rec) => rec.merge.Some?
    case _ => false
  }

  ghost predicate SomePromoteCanReach(mt: MergeTree, s: State, id: string) {
    exists c :: c in s.calls && s.calls[c].id == id && CanReach(mt, s.trunk, s.calls[c].pc)
  }

  /**
   The exact condition: a merge is recorded, the trunk is at its base, and a promote of it can still
   reach the update.
   */
  ghost predicate CanStillLand(mt: MergeTree, s: State, id: string)
    requires id in s.rows
  {
    s.rows[id].merge.Some? && s.trunk == s.rows[id].base && SomePromoteCanReach(mt, s, id)
  }

  predicate AbortedOut(s: State, id: string) {
    id in s.rows && s.rows[id].state == Aborted && !Landed(s.rows[id], s.trunk)
  }

  ghost predicate ShutOut(mt: MergeTree, s: State, id: string) {
    AbortedOut(s, id) && !CanStillLand(mt, s, id)
  }

  /** A Promote past its first read, which may still reach the ref update. */
  predicate InFlight(pc: Pc) {
    || (pc.ReconcileTip? && pc.promoting) || pc.ReadTip? || pc.Resolve? || pc.RunGate? || pc.WriteCommit?
    || pc.SetValidating? || pc.Reget? || pc.AcquireLease? || pc.Reload? || pc.LandedTip? || pc.NowTip? || pc.UpdateRef?
  }

  /** Aborted, not landed, and no promote of it in flight. */
  predicate Sealed(s: State, id: string) {
    AbortedOut(s, id) && forall c | c in s.calls && s.calls[c].id == id :: !InFlight(s.calls[c].pc)
  }

  lemma SealedIsShutOut(mt: MergeTree, s: State, id: string)
    requires Sealed(s, id)
    ensures ShutOut(mt, s, id)
  {
    forall c | c in s.calls && s.calls[c].id == id ensures !CanReach(mt, s.trunk, s.calls[c].pc) {
      assert !InFlight(s.calls[c].pc);
    }
  }

  lemma NextPcNotInFlight(mt: MergeTree, s: State, c: nat, ok: bool, now: int)
    requires c in s.calls && !InFlight(s.calls[c].pc) && c in Advance(mt, s, c, ok, now).calls
    requires s.calls[c].id in s.rows && s.rows[s.calls[c].id].state == Aborted
    ensures !InFlight(Advance(mt, s, c, ok, now).calls[c].pc)
  {
  }

  /** A new promote of an aborted row stops at its first read. */
  lemma NoneInFlight(mt: MergeTree, s: State, l: Label, id: string)
    requires Sealed(s, id)
    ensures var t := Step(mt, s, l); forall c | c in t.calls && t.calls[c].id == id :: !InFlight(t.calls[c].pc)
  {
    if l.Tick? && l.call in s.calls {
      var t := Advance(mt, s, l.call, l.ok, l.now);
      TickOwnCallOnly(mt, s, l.call, l.ok, l.now);
      forall c | c in t.calls && t.calls[c].id == id ensures !InFlight(t.calls[c].pc) {
        if c == l.call { NextPcNotInFlight(mt, s, c, l.ok, l.now); }
      }
    }
  }

  // ---- shut out is shut out for good ------------------------------------------------------------

  lemma StuckNextPc(mt: MergeTree, s: State, c: nat, ok: bool, now: int)
    requires c in s.calls && c in Advance(mt, s, c, ok, now).calls
    requires s.calls[c].id in s.rows && s.rows[s.calls[c].id].state == Aborted
    requires !CanReach(mt, s.trunk, s.calls[c].pc) && !s.calls[c].pc.Resolve?
    ensures !CanReach(mt, s.trunk, Advance(mt, s, c, ok, now).calls[c].pc)
  {
    var pc, t := s.calls[c].pc, Advance(mt, s, c, ok, now);
    if pc.Submitting() {
      assert t == SubmitStep(s, c, now);
    } else if pc.Reconciling() {
      assert t == ReconcileStep(s, c, ok);
    } else if pc.ValidatingPhase() {
      assert t == ValidateStep(mt, s, c);
    } else if pc.Landing() {
      assert t == LandStep(s, c, ok);
    } else {
      assert t == AbortStep(s, c, ok);
    }
  }

  /** Before its gate, with no clean branch able to pass it: the branch it finds does not pass either. */
  lemma StuckResolve(mt: MergeTree, s: State, c: nat)
    requires c in s.calls && s.calls[c].pc.Resolve? && !CanReach(mt, s.trunk, s.calls[c].pc)
    requires forall ref | ref in s.branches :: CleanSource(s.trunk, s.branches[ref])
    ensures var t := ValidateStep(mt, s, c); c in t.calls ==> !CanReach(mt, s.trunk, t.calls[c].pc)
  {
    var pc := s.calls[c].pc;
    if pc.rec.branch in s.branches {
      assert CleanSource(s.trunk, s.branches[pc.rec.branch]);
    }
  }

  lemma NoneCanReach(mt: MergeTree, s: State, l: Label, id: string)
    requires id in s.rows && s.rows[id].state == Aborted && Step(mt, s, l).trunk == s.trunk
    requires forall ref | ref in s.branches :: CleanSource(s.trunk, s.branches[ref])
    requires !SomePromoteCanReach(mt, s, id)
    ensures !SomePromoteCanReach(mt, Step(mt, s, l), id)
  {
    var t := Step(mt, s, l);
    forall c | c in t.calls && t.calls[c].id == id ensures !CanReach(mt, t.trunk, t.calls[c].pc) {
      if l.Tick? && l.call in s.calls {
        TickOwnCallOnly(mt, s, l.call, l.ok, l.now);
        assert !CanReach(mt, s.trunk, s.calls[c].pc);
        if c == l.call && s.calls[c].pc.Resolve? {
          StuckResolve(mt, s, c);
        } else if c == l.call {
          StuckNextPc(mt, s, c, l.ok, l.now);
        }
      } else if c in s.calls && t.calls[c] == s.calls[c] {
        assert !CanReach(mt, s.trunk, s.calls[c].pc);
      }
    }
  }

  /** The mover of the trunk is another integration's promote, and the trunk leaves a past base for good. */
  lemma MoveLeavesOut(mt: MergeTree, t0: Option<Commit>, s: State, l: Label, id: string)
    requires Inv(mt, t0, s) && CleanBranches(s) && ShutOut(mt, s, id) && Step(mt, s, l).trunk != s.trunk
    ensures !Landed(s.rows[id], Step(mt, s, l).trunk)
    ensures HistoryKept(s.rows[id].base, s.trunk) ==> Step(mt, s, l).trunk != s.rows[id].base
  {
    OnlyUpdateRefMoves(mt, s, l);
    var rec := s.calls[l.call].pc.rec;
    assert RecInv(mt, s, s.calls[l.call].id, rec) by {
      assert CallInv(mt, s, s.calls[l.call].id, s.calls[l.call].pc);
    }
    assert s.calls[l.call].id == id ==> CanReach(mt, s.trunk, s.calls[l.call].pc);
    OthersStayOut(mt, t0, s, l, id);
    var mover := MoveIsRecorded(mt, t0, s, l);
    if HistoryKept(s.rows[id].base, s.trunk) {
      BaseLeftForGood(s.rows[id].base, s.trunk, Step(mt, s, l).trunk.value);
    }
  }

  /** Shut out stays shut out when no base lies ahead of the trunk, or when nothing is in flight at all. */
  lemma ShutOutStep(mt: MergeTree, t0: Option<Commit>, s: State, l: Label, id: string)
    requires Inv(mt, t0, s) && CleanBranches(s) && CleanLabel(s, l)
    requires ShutOut(mt, s, id) && (BasesPast(s) || Sealed(s, id))
    ensures var t := Step(mt, s, l); CleanBranches(t) && ShutOut(mt, t, id) && t.rows[id] == s.rows[id]
    ensures var t := Step(mt, s, l); (BasesPast(s) ==> BasesPast(t)) && (Sealed(s, id) ==> Sealed(t, id))
  {
    var t := Step(mt, s, l);
    assert id in t.rows && t.rows[id] == s.rows[id] && HistoryKept(s.trunk, t.trunk) by {
      StepKeeps(mt, t0, s, l);
    }
    if BasesPast(s) { PastStep(mt, s, l); }
    if t.trunk == s.trunk {
      CleanStep(mt, s, l);
      if !SomePromoteCanReach(mt, s, id) { NoneCanReach(mt, s, l, id); }
    } else {
      CleanMove(mt, s, l);
      MoveLeavesOut(mt, t0, s, l, id);
    }
    if Sealed(s, id) {
      NoneInFlight(mt, s, l, id);
      SealedIsShutOut(mt, t, id);
    }
  }

  lemma {:induction false} ShutOutRun(mt: MergeTree, t0: Option<Commit>, s: State, ls: seq<Label>, id: string)
    requires Inv(mt, t0, s) && CleanBranches(s) && CleanRun(mt, s, ls)
    requires ShutOut(mt, s, id) && (BasesPast(s) || Sealed(s, id))
    ensures var t := Run(mt, s, ls); CleanBranches(t) && ShutOut(mt, t, id) && t.rows[id] == s.rows[id]
    ensures var t := Run(mt, s, ls); (BasesPast(s) ==> BasesPast(t)) && (Sealed(s, id) ==> Sealed(t, id))
    decreases |ls|
  {
    if ls != [] {
      CleanRunFront(mt, s, ls);
      ShutOutRun(mt, t0, s, Front(ls), id);
      assert Inv(mt, t0, Run(mt, s, Front(ls))) by { RunKeeps(mt, t0, s, Front(ls)); }
      ShutOutStep(mt, t0, Run(mt, s, Front(ls)), Last(ls), id);
    }
  }

  // ---- otherwise a clean schedule lands it -----------------------------------------------------------

  /** Some clean schedule lands the row. */
  ghost predicate CanLand(mt: MergeTree, s: State, id: string) {
    exists ls :: CleanRun(mt, s, ls) && LandedAfter(mt, s, ls, id)
  }

  predicate LandedAfter(mt: MergeTree, s: State, ls: seq<Label>, id: string) {
    var t := Run(mt, s, ls); id in t.rows && Landed(t.rows[id], t.trunk)
  }

  lemma Prepend(mt: MergeTree, s: State, l: Label, id: string)
    requires CleanLabel(s, l) && CanLand(mt, Step(mt, s, l), id)
    ensures CanLand(mt, s, id)
  {
    var ls :| CleanRun(mt, Step(mt, s, l), ls) && LandedAfter(mt, Step(mt, s, l), ls, id);
    RunFromStep(mt, s, l, ls);
    forall k | 0 <= k < |[l] + ls| ensures CleanLabel(Run(mt, s, ([l] + ls)[..k]), ([l] + ls)[k]) {
      if k > 0 {
        assert ([l] + ls)[..k] == [l] + ls[..k - 1];
        RunFromStep(mt, s, l, ls[..k - 1]);
      }
    }
    assert CleanRun(mt, s, [l] + ls) && LandedAfter(mt, s, [l] + ls, id);
  }

  lemma RunFromStep(mt: MergeTree, s: State, l: Label, ls: seq<Label>)
    ensures Run(mt, s, [l] + ls) == Run(mt, Step(mt, s, l), ls)
  {
    assert Front([l]) == [] && Last([l]) == l && Run(mt, s, []) == s;
    RunSplit(mt, s, [l], ls);
  }

  /** The aborted row, the call, and the trunk still at the recorded base. */
  predicate Poised(s: State, c: nat, id: string) {
    && AbortedOut(s, id) && s.rows[id].merge.Some? && s.trunk == s.rows[id].base
    && c in s.calls && s.calls[c].id == id
  }

  predicate SameMerge(rec: Row, row: Row) {
    rec.merge == row.merge && rec.base == row.base
  }

  lemma FromUpdateRef(mt: MergeTree, s: State, c: nat, id: string)
    requires Poised(s, c, id) && s.calls[c].pc.UpdateRef? && SameMerge(s.calls[c].pc.rec, s.rows[id])
    ensures CanLand(mt, s, id)
  {
    var t := Step(mt, s, Tick(c, true, 0));
    assert t.trunk == s.rows[id].merge && t.rows == s.rows;
    assert Front([Tick(c, true, 0)]) == [] && Run(mt, s, []) == s;
    assert Run(mt, s, [Tick(c, true, 0)]) == t;
    assert CleanRun(mt, s, [Tick(c, true, 0)]) && LandedAfter(mt, s, [Tick(c, true, 0)], id);
  }

  lemma FromNowTip(mt: MergeTree, s: State, c: nat, id: string)
    requires Poised(s, c, id) && s.calls[c].pc.NowTip? && SameMerge(s.calls[c].pc.rec, s.rows[id])
    ensures CanLand(mt, s, id)
  {
    assert Step(mt, s, Tick(c, true, 0)) == Goto(s, c, UpdateRef(s.calls[c].pc.rec));
    FromUpdateRef(mt, Goto(s, c, UpdateRef(s.calls[c].pc.rec)), c, id);
    Prepend(mt, s, Tick(c, true, 0), id);
  }

  lemma FromLandedTip(mt: MergeTree, s: State, c: nat, id: string)
    requires Poised(s, c, id) && s.calls[c].pc.LandedTip? && SameMerge(s.calls[c].pc.rec, s.rows[id])
    ensures CanLand(mt, s, id)
  {
    assert Step(mt, s, Tick(c, true, 0)) == Goto(s, c, NowTip(s.calls[c].pc.rec));
    FromNowTip(mt, Goto(s, c, NowTip(s.calls[c].pc.rec)), c, id);
    Prepend(mt, s, Tick(c, true, 0), id);
  }

  lemma FromReload(mt: MergeTree, s: State, c: nat, id: string)
    requires Poised(s, c, id) && s.calls[c].pc.Reload?
    ensures CanLand(mt, s, id)
  {
    assert Step(mt, s, Tick(c, true, 0)) == Goto(s, c, LandedTip(s.rows[id]));
    FromLandedTip(mt, Goto(s, c, LandedTip(s.rows[id])), c, id);
    Prepend(mt, s, Tick(c, true, 0), id);
  }

  /** The lease is granted. */
  lemma FromLease(mt: MergeTree, s: State, c: nat, id: string)
    requires Poised(s, c, id) && s.calls[c].pc.AcquireLease?
    ensures CanLand(mt, s, id)
  {
    assert Step(mt, s, Tick(c, true, 0)) == Goto(s, c, Reload);
    FromReload(mt, Goto(s, c, Reload), c, id);
    Prepend(mt, s, Tick(c, true, 0), id);
  }

  lemma FromReget(mt: MergeTree, s: State, c: nat, id: string)
    requires Poised(s, c, id) && s.calls[c].pc.Reget?
    ensures CanLand(mt, s, id)
  {
    assert Step(mt, s, Tick(c, true, 0)) == Goto(s, c, AcquireLease);
    FromLease(mt, Goto(s, c, AcquireLease), c, id);
    Prepend(mt, s, Tick(c, true, 0), id);
  }

  /** The row is no longer received, so the call adopts the durable one. */
  lemma FromSetValidating(mt: MergeTree, s: State, c: nat, id: string)
    requires Poised(s, c, id) && s.calls[c].pc.SetValidating?
    ensures CanLand(mt, s, id)
  {
    assert Step(mt, s, Tick(c, true, 0)) == Goto(s, c, Reget);
    FromReget(mt, Goto(s, c, Reget), c, id);
    Prepend(mt, s, Tick(c, true, 0), id);
  }

  lemma FromWriteCommit(mt: MergeTree, s: State, c: nat, id: string)
    requires Poised(s, c, id) && s.calls[c].pc.WriteCommit?
    ensures CanLand(mt, s, id)
  {
    var pc := s.calls[c].pc;
    var next := SetValidating(pc.rec, pc.tip, MergeFor(id, pc.rec, pc.tip, pc.source, pc.tree));
    assert Step(mt, s, Tick(c, true, 0)) == Goto(s, c, next);
    FromSetValidating(mt, Goto(s, c, next), c, id);
    Prepend(mt, s, Tick(c, true, 0), id);
  }

  lemma FromGate(mt: MergeTree, s: State, c: nat, id: string)
    requires Poised(s, c, id) && s.calls[c].pc.RunGate? && CanReach(mt, s.trunk, s.calls[c].pc)
    ensures CanLand(mt, s, id)
  {
    var pc := s.calls[c].pc;
    var next := WriteCommit(pc.rec, pc.tip, pc.source, Validate(mt, pc.tip, pc.source).tree);
    assert Step(mt, s, Tick(c, true, 0)) == Goto(s, c, next);
    FromWriteCommit(mt, Goto(s, c, next), c, id);
    Prepend(mt, s, Tick(c, true, 0), id);
  }

  /** The agent pushes a commit the gate passes. */
  lemma FromResolve(mt: MergeTree, s: State, c: nat, id: string)
    requires Poised(s, c, id) && s.calls[c].pc.Resolve? && CanReach(mt, s.trunk, s.calls[c].pc)
    ensures CanLand(mt, s, id)
  {
    var pc := s.calls[c].pc;
    var b :| CleanSource(s.trunk, b) && Validate(mt, pc.tip, b).Pass?;
    var u := Step(mt, s, SetBranch(pc.rec.branch, b));
    assert Step(mt, u, Tick(c, true, 0)) == Goto(u, c, RunGate(pc.rec, pc.tip, b));
    FromGate(mt, Goto(u, c, RunGate(pc.rec, pc.tip, b)), c, id);
    Prepend(mt, u, Tick(c, true, 0), id);
    Prepend(mt, s, SetBranch(pc.rec.branch, b), id);
  }

  /** The trunk is at the recorded base, so the commit the row was merged from passes the gate again. */
  lemma FromReadTip(mt: MergeTree, s: State, c: nat, id: string)
    requires Poised(s, c, id) && s.calls[c].pc.ReadTip?
    requires CleanMerge(s.trunk, s.rows[id].merge.value) && IsMergeOf(mt, id, s.rows[id], s.rows[id].merge.value)
    ensures CanLand(mt, s, id)
  {
    var next := Resolve(s.calls[c].pc.rec, s.trunk);
    assert Step(mt, s, Tick(c, true, 0)) == Goto(s, c, next);
    assert CleanSource(s.trunk, Last(s.rows[id].merge.value.parents));
    FromResolve(mt, Goto(s, c, next), c, id);
    Prepend(mt, s, Tick(c, true, 0), id);
  }

  lemma FromReconcile(mt: MergeTree, s: State, c: nat, id: string)
    requires Poised(s, c, id) && s.calls[c].pc.ReconcileTip? && s.calls[c].pc.promoting
    ensures CanLand(mt, s, id)
  {
    assert Step(mt, s, Tick(c, false, 0)) == Goto(s, c, AcquireLease);
    FromLease(mt, Goto(s, c, AcquireLease), c, id);
    Prepend(mt, s, Tick(c, false, 0), id);
  }

  lemma PoisedLands(mt: MergeTree, t0: Option<Commit>, s: State, c: nat, id: string)
    requires Inv(mt, t0, s) && CleanBranches(s) && Poised(s, c, id) && CanReach(mt, s.trunk, s.calls[c].pc)
    ensures CanLand(mt, s, id)
  {
    var pc := s.calls[c].pc;
    assert CallInv(mt, s, id, pc) && RowInv(mt, s.trunk, id, s.rows[id]);
    match pc
    case ReconcileTip(_, _) => FromReconcile(mt, s, c, id);
    case ReadTip(_) => FromReadTip(mt, s, c, id);
    case Resolve(_, _) => FromResolve(mt, s, c, id);
    case RunGate(_, _, _) => FromGate(mt, s, c, id);
    case WriteCommit(_, _, _, _) => FromWriteCommit(mt, s, c, id);
    case SetValidating(_, _, _) => FromSetValidating(mt, s, c, id);
    case Reget => FromReget(mt, s, c, id);
    case AcquireLease => FromLease(mt, s, c, id);
    case Reload => FromReload(mt, s, c, id);
    case LandedTip(_) => FromLandedTip(mt, s, c, id);
    case NowTip(_) => FromNowTip(mt, s, c, id);
    case UpdateRef(_) => FromUpdateRef(mt, s, c, id);
    case _ =>
  }

  // ---- the theorems ---------------------------------------------------------------------------------

  /**
   Exactly when an aborted integration can still land: in every reachable state with clean branches,
   some clean schedule lands an aborted row that has not landed if and only if a merge is recorded,
   the trunk is at its base, and a promote of it is in flight that can still pass its gate.
   */
  lemma AbortedLandsIff(mt: MergeTree, t0: Option<Commit>, s: State, id: string)
    requires Reachable(mt, t0, s) && CleanBranches(s) && AbortedOut(s, id)
    ensures CanLand(mt, s, id) <==> CanStillLand(mt, s, id)
  {
    ReachableInv(mt, t0, s);
    if CanStillLand(mt, s, id) {
      var c :| c in s.calls && s.calls[c].id == id && CanReach(mt, s.trunk, s.calls[c].pc);
      PoisedLands(mt, t0, s, c, id);
    } else {
      ReachablePast(mt, t0, s);
      forall ls | CleanRun(mt, s, ls) ensures !LandedAfter(mt, s, ls, id) {
        ShutOutRun(mt, t0, s, ls, id);
      }
    }
  }

  /** Otherwise aborted is final: the row stays as it is and out of the trunk for every later clean schedule. */
  lemma AbortedIsFinal(mt: MergeTree, t0: Option<Commit>, s: State, ls: seq<Label>, id: string)
    requires Reachable(mt, t0, s) && CleanBranches(s) && CleanRun(mt, s, ls)
    requires AbortedOut(s, id) && !CanStillLand(mt, s, id)
    ensures var t := Run(mt, s, ls); AbortedOut(t, id) && !CanStillLand(mt, t, id) && t.rows[id] == s.rows[id]
  {
    ReachableInv(mt, t0, s);
    ReachablePast(mt, t0, s);
    ShutOutRun(mt, t0, s, ls, id);
  }

  /** A special case: aborted with no promote in flight stays so, and out of the trunk, for every later schedule. */
  lemma SealedIsFinal(mt: MergeTree, t0: Option<Commit>, s: State, ls: seq<Label>, id: string)
    requires Inv(mt, t0, s) && CleanBranches(s) && Sealed(s, id) && CleanRun(mt, s, ls)
    ensures CleanBranches(Run(mt, s, ls)) && Sealed(Run(mt, s, ls), id)
  {
    SealedIsShutOut(mt, s, id);
    ShutOutRun(mt, t0, s, ls, id);
  }
}
