/** Reachable states that show what the protocol does not promise. */
module TrunkScenes {
  import opened Basics
  import opened Git
  import opened TrunkMachine
  import opened TrunkSafety

  const REF := "b"
  const ID := "int-0"

  function Submitted(): Row {
    Row(REF, "", None, None, Received, false, 0)
  }

  function Made(src: Commit): Commit {
    MergeFor(ID, Submitted(), None, src, src.tree)
  }

  function Recorded(src: Commit): Row {
    MarkValidating(Submitted(), None, Made(src))
  }

  /** One row, an unborn trunk and one branch. */
  function Scene(src: Commit, row: Row, calls: map<nat, Call>): State {
    State(map[ID := row], None, map[REF := src], calls, [])
  }

  /** Call c of the scene has moved on to pc. */
  function Cut(s: State, c: nat, pc: Pc): State {
    s.(calls := s.calls[c := Call("", ID, pc)])
  }

  lemma ReachBy(mt: MergeTree, s: State, l: Label, t: State)
    requires Reachable(mt, None, s) && Step(mt, s, l) == t
    ensures Reachable(mt, None, t)
  {
    ReachableStep(mt, None, s, l);
  }

  /** The next statement of call c takes it from pc a to pc b and changes nothing else. */
  lemma ReachNext(mt: MergeTree, s: State, c: nat, a: Pc, b: Pc)
    requires Reachable(mt, None, Cut(s, c, a))
    requires Advance(mt, Cut(s, c, a), c, true, 0) == Goto(Cut(s, c, a), c, b)
    ensures Reachable(mt, None, Cut(s, c, b))
  {
    assert Goto(Cut(s, c, a), c, b) == Cut(s, c, b);
    ReachBy(mt, Cut(s, c, a), Tick(c, true, 0), Cut(s, c, b));
  }

  lemma ReachRead(mt: MergeTree, s: State, c: nat, a: Pc, b: Pc)
    requires Reachable(mt, None, Cut(s, c, a)) && a.Reconciling()
    requires ReconcileStep(Cut(s, c, a), c, true) == Goto(Cut(s, c, a), c, b)
    ensures Reachable(mt, None, Cut(s, c, b))
  {
    ReachNext(mt, s, c, a, b);
  }

  lemma ReachValidate(mt: MergeTree, s: State, c: nat, a: Pc, b: Pc)
    requires Reachable(mt, None, Cut(s, c, a)) && a.ValidatingPhase()
    requires ValidateStep(mt, Cut(s, c, a), c) == Goto(Cut(s, c, a), c, b)
    ensures Reachable(mt, None, Cut(s, c, b))
  {
    ReachNext(mt, s, c, a, b);
  }

  lemma ReachLand(mt: MergeTree, s: State, c: nat, a: Pc, b: Pc)
    requires Reachable(mt, None, Cut(s, c, a)) && a.Landing()
    requires LandStep(Cut(s, c, a), c, true) == Goto(Cut(s, c, a), c, b)
    ensures Reachable(mt, None, Cut(s, c, b))
  {
    ReachNext(mt, s, c, a, b);
  }

  lemma ReachAbort(mt: MergeTree, s: State, c: nat, a: Pc, b: Pc)
    requires Reachable(mt, None, Cut(s, c, a)) && a.Aborting()
    requires AbortStep(Cut(s, c, a), c, true) == Goto(Cut(s, c, a), c, b)
    ensures Reachable(mt, None, Cut(s, c, b))
  {
    ReachNext(mt, s, c, a, b);
  }

  // ---- one promote up to its ref update -------------------------------------------------

  lemma SceneSubmitted(mt: MergeTree, src: Commit)
    ensures Reachable(mt, None, Scene(src, Submitted(), map[]))
  {
    var s := State(map[], None, map[REF := src], map[], []);
    assert Run(mt, s, []) == s && Initial(s, None);
    assert ValidRef(REF) by { assert forall c | c in REF :: c == 'b'; }
    ReachBy(mt, s, Begin(0, "", ID, Submit(REF)), Cut(s, 0, SubmitResolve(REF)));
    ReachNext(mt, s, 0, SubmitResolve(REF), SubmitTip(REF));
    ReachNext(mt, s, 0, SubmitTip(REF), SubmitInsert(REF, None));
    ReachBy(mt, Cut(s, 0, SubmitInsert(REF, None)), Tick(0, true, 0), Scene(src, Submitted(), map[]));
  }

  lemma SceneResolving(mt: MergeTree, src: Commit)
    ensures Reachable(mt, None, Cut(Scene(src, Submitted(), map[]), 1, Resolve(Submitted(), None)))
  {
    var s, row := Scene(src, Submitted(), map[]), Submitted();
    SceneSubmitted(mt, src);
    ReachBy(mt, s, Begin(1, "", ID, Promote), Cut(s, 1, PromoteGet));
    ReachRead(mt, s, 1, PromoteGet, ReadTip(row));
    ReachValidate(mt, s, 1, ReadTip(row), Resolve(row, None));
  }

  lemma SceneBuilt(mt: MergeTree, src: Commit)
    ensures Reachable(mt, None, Cut(Scene(src, Submitted(), map[]), 1, SetValidating(Submitted(), None, Made(src))))
  {
    var s, row := Scene(src, Submitted(), map[]), Submitted();
    SceneResolving(mt, src);
    ReachValidate(mt, s, 1, Resolve(row, None), RunGate(row, None, src));
    ReachValidate(mt, s, 1, RunGate(row, None, src), WriteCommit(row, None, src, src.tree));
    ReachValidate(mt, s, 1, WriteCommit(row, None, src, src.tree), SetValidating(row, None, Made(src)));
  }

  lemma SceneValidating(mt: MergeTree, src: Commit)
    ensures Reachable(mt, None, Cut(Scene(src, Recorded(src), map[]), 1, AcquireLease))
  {
    SceneBuilt(mt, src);
    ReachBy(mt, Cut(Scene(src, Submitted(), map[]), 1, SetValidating(Submitted(), None, Made(src))), Tick(1, true, 0),
            Cut(Scene(src, Recorded(src), map[]), 1, AcquireLease));
  }

  lemma SceneLeased(mt: MergeTree, src: Commit)
    ensures Reachable(mt, None, Cut(Scene(src, Recorded(src), map[]), 1, LandedTip(Recorded(src))))
  {
    var s := Scene(src, Recorded(src), map[]);
    SceneValidating(mt, src);
    ReachLand(mt, s, 1, AcquireLease, Reload);
    ReachLand(mt, s, 1, Reload, LandedTip(Recorded(src)));
  }

  lemma SceneAtUpdate(mt: MergeTree, src: Commit)
    ensures Reachable(mt, None, Cut(Scene(src, Recorded(src), map[]), 1, UpdateRef(Recorded(src))))
  {
    var s := Scene(src, Recorded(src), map[]);
    SceneLeased(mt, src);
    ReachLand(mt, s, 1, LandedTip(Recorded(src)), NowTip(Recorded(src)));
    ReachLand(mt, s, 1, NowTip(Recorded(src)), UpdateRef(Recorded(src)));
  }

  // ---- an abort overtakes it --------------------------------------------------------------

  /** The promote at its ref update. */
  function Poised(src: Commit, row: Row): State {
    Cut(Scene(src, row, map[]), 1, UpdateRef(Recorded(src)))
  }

  lemma SceneAborting(mt: MergeTree, src: Commit)
    ensures Reachable(mt, None, Cut(Poised(src, Recorded(src)), 2, AbortCas(Recorded(src), Aborted)))
  {
    var s := Poised(src, Recorded(src));
    SceneAtUpdate(mt, src);
    ReachBy(mt, s, Begin(2, "", ID, Abort), Cut(s, 2, AbortGet));
    ReachAbort(mt, s, 2, AbortGet, AbortLandedTip(Recorded(src)));
    ReachAbort(mt, s, 2, AbortLandedTip(Recorded(src)), AbortCas(Recorded(src), Aborted));
  }

  lemma AbortGoesThrough(src: Commit)
    ensures AbortStep(Cut(Poised(src, Recorded(src)), 2, AbortCas(Recorded(src), Aborted)), 2, true)
            == Poised(src, Recorded(src).(state := Aborted))
  {
    var before := Cut(Poised(src, Recorded(src)), 2, AbortCas(Recorded(src), Aborted));
    assert End(before, 2).calls == Poised(src, Recorded(src)).calls;
  }

  lemma SceneOvertaken(mt: MergeTree, src: Commit)
    ensures Reachable(mt, None, Poised(src, Recorded(src).(state := Aborted)))
  {
    SceneAborting(mt, src);
    AbortGoesThrough(src);
    ReachBy(mt, Cut(Poised(src, Recorded(src)), 2, AbortCas(Recorded(src), Aborted)), Tick(2, true, 0),
            Poised(src, Recorded(src).(state := Aborted)));
  }

  /** Under free interleaving "aborted means never landed" is false: here is a reachable state that breaks it. */
  lemma AbortedMayHaveLanded(mt: MergeTree, src: Commit) returns (s: State)
    ensures Reachable(mt, None, s) && ID in s.rows && s.rows[ID].state == Aborted && Landed(s.rows[ID], s.trunk)
  {
    SceneOvertaken(mt, src);
    var before := Poised(src, Recorded(src).(state := Aborted));
    s := Step(mt, before, Tick(1, true, 0));
    ReachableStep(mt, None, before, Tick(1, true, 0));
  }

  // ---- two promotes of one id ---------------------------------------------------------------

  /** The first promote has built its commit from src; then the branch has moved on. */
  function Built(src: Commit, other: Commit): State {
    Cut(Scene(other, Submitted(), map[]), 1, SetValidating(Submitted(), None, Made(src)))
  }

  lemma SceneRacing(mt: MergeTree, src: Commit, other: Commit)
    ensures Reachable(mt, None, Cut(Built(src, other), 2, Resolve(Submitted(), None)))
  {
    var s, row := Built(src, other), Submitted();
    SceneBuilt(mt, src);
    assert map[REF := src][REF := other] == map[REF := other];
    ReachBy(mt, Built(src, src), SetBranch(REF, other), s);
    ReachBy(mt, s, Begin(2, "", ID, Promote), Cut(s, 2, PromoteGet));
    ReachRead(mt, s, 2, PromoteGet, ReadTip(row));
    ReachValidate(mt, s, 2, ReadTip(row), Resolve(row, None));
  }

  /**
   Two promotes of one id need not build the same commit: in this reachable state both are about to
   record a merge, and the merges differ because the branch moved between them.
   */
  lemma PromotesMayDisagree(mt: MergeTree, src: Commit, other: Commit) returns (s: State)
    requires src != other
    ensures Reachable(mt, None, s) && 1 in s.calls && 2 in s.calls && s.calls[1].id == s.calls[2].id
    ensures s.calls[1].pc.SetValidating? && s.calls[2].pc.SetValidating? && s.calls[1].pc.made != s.calls[2].pc.made
  {
    var b, row := Built(src, other), Submitted();
    SceneRacing(mt, src, other);
    ReachValidate(mt, b, 2, Resolve(row, None), RunGate(row, None, other));
    ReachValidate(mt, b, 2, RunGate(row, None, other), WriteCommit(row, None, other, other.tree));
    ReachValidate(mt, b, 2, WriteCommit(row, None, other, other.tree), SetValidating(row, None, Made(other)));
    s := Cut(b, 2, SetValidating(row, None, Made(other)));
    assert Last(Made(src).parents) == src && Last(Made(other).parents) == other;
  }
}
