/**
 The nudge hand-off: pollers append events to a shared list, and the first to find no
 deliverer running starts one. Critical sections are steps; deliverers are goroutines that
 may be at any point between them. enqueued and taken are history variables.
 */
module Nudge {
  import opened Basics

  type Event = string

  /** Quieting: in waitQuiet. Ready: it returned true. Leaving: it returned false. Busy: a batch is being injected. */
  datatype Pc = Quieting | Ready | Leaving | Busy

  datatype State = State(pending: seq<Event>, delivering: bool, running: map<nat, Pc>, spawned: nat, cancelled: bool,
                         enqueued: seq<Event>, taken: seq<seq<Event>>)

  const START := State([], false, map[], 0, false, [], [])

  datatype Step =
    | Enqueue(events: seq<Event>)
    | Quiet(id: nat)
    | Disturbed(id: nat)
    | Take(id: nat)
    | Inject(id: nat)
    | Leave(id: nat)
    | Cancel

  predicate At(s: State, id: nat, pc: Pc) {
    id in s.running && s.running[id] == pc
  }

  predicate Enabled(s: State, m: Step) {
    match m
    case Enqueue(_) => true
    case Quiet(id) => At(s, id, Quieting)
    case Disturbed(id) => At(s, id, Quieting) && s.cancelled
    case Take(id) => At(s, id, Ready)
    case Inject(id) => At(s, id, Busy)
    case Leave(id) => At(s, id, Leaving)
    case Cancel => true
  }

  function Next(s: State, m: Step): State
    requires Enabled(s, m)
  {
    match m
    case Enqueue(events) =>
      var t := s.(pending := s.pending + events, enqueued := s.enqueued + events);
      if s.delivering then t
      else t.(delivering := true, running := s.running[s.spawned := Quieting], spawned := s.spawned + 1)
    case Quiet(id) => s.(running := s.running[id := Ready])
    case Disturbed(id) => s.(running := s.running[id := Leaving])
    case Take(id) =>
      if s.pending == [] then s.(delivering := false, running := s.running - {id})
      else s.(pending := [], taken := s.taken + [s.pending], running := s.running[id := Busy])
    // the text may be empty and the injection may fail: either way the loop goes on
    case Inject(id) => s.(running := s.running[id := Quieting])
    case Leave(id) => s.(delivering := false, running := s.running - {id})
    case Cancel => s.(cancelled := true)
  }

  /** A step that cannot happen changes nothing. */
  function Run(s: State, ms: seq<Step>): State {
    if ms == [] then s
    else var t := Run(s, Front(ms)); if Enabled(t, Last(ms)) then Next(t, Last(ms)) else t
  }

  function Flat(batches: seq<seq<Event>>): seq<Event> {
    if batches == [] then [] else Flat(Front(batches)) + Last(batches)
  }

  predicate Inv(s: State) {
    && (forall i, j | i in s.running && j in s.running :: i == j)
    && (s.delivering <==> s.running != map[])
    && (forall i | i in s.running :: i < s.spawned && (s.running[i] == Leaving ==> s.cancelled))
    && Flat(s.taken) + s.pending == s.enqueued
    && (forall b | b in s.taken :: b != [])
    && (s.pending != [] && !s.cancelled ==> s.delivering)
  }

  lemma StepKeeps(s: State, m: Step)
    requires Inv(s) && Enabled(s, m)
    ensures Inv(Next(s, m))
  {
    var t := Next(s, m);
    match m
    case Enqueue(events) =>
      assert Flat(s.taken) + (s.pending + events) == Flat(s.taken) + s.pending + events;
      assert t.delivering ==> (if s.delivering then t.running == s.running else s.spawned in t.running);
      if s.delivering { var i :| i in s.running; } else { assert s.spawned in t.running; }
    case Take(id) =>
      if s.pending == [] {
        assert t.running == map[];
      } else {
        assert Front(t.taken) == s.taken;
        assert id in t.running;
      }
    case Leave(id) => assert t.running == map[];
    case Quiet(id) => assert id in t.running;
    case Disturbed(id) => assert id in t.running;
    case Inject(id) => assert id in t.running;
    case Cancel =>
  }

  lemma {:induction false} RunKeeps(ms: seq<Step>)
    ensures Inv(Run(START, ms))
  {
    if ms != [] {
      RunKeeps(Front(ms));
      var t := Run(START, Front(ms));
      if Enabled(t, Last(ms)) { StepKeeps(t, Last(ms)); }
    }
  }

  /** In every interleaving: at most one deliverer runs, and exactly when the flag says so. */
  lemma {:induction false} AtMostOneDeliverer(ms: seq<Step>)
    ensures var s := Run(START, ms); |s.running| == if s.delivering then 1 else 0
  {
    RunKeeps(ms);
    var s := Run(START, ms);
    if s.delivering {
      var id :| id in s.running;
      assert s.running.Keys == {id};
      assert |s.running| == |s.running.Keys|;
    }
  }

  /** Nothing is lost, duplicated or reordered: the batches taken, then what is pending, are what was enqueued. */
  lemma {:induction false} NothingLostOrDuplicated(ms: seq<Step>)
    ensures var s := Run(START, ms);
            Flat(s.taken) + s.pending == s.enqueued && forall b | b in s.taken :: b != []
  {
    RunKeeps(ms);
  }

  /** Nothing is injected unasked: a deliverer ready to take events has waited for quiet, and done nothing since. */
  lemma {:induction false} QuietBeforeTake(ms: seq<Step>, id: nat) returns (k: nat)
    requires At(Run(START, ms), id, Ready)
    ensures k < |ms| && ms[k] == Quiet(id) && Enabled(Run(START, ms[..k]), Quiet(id))
    ensures forall j | k < j <= |ms| :: At(Run(START, ms[..j]), id, Ready)
  {
    assert ms != [] && ms[..|ms|] == ms && ms[..|ms| - 1] == Front(ms);
    if At(Run(START, Front(ms)), id, Ready) {
      k := QuietBeforeTake(Front(ms), id);
      assert forall j | 0 <= j < |ms| :: Front(ms)[..j] == ms[..j];
    } else {
      k := |ms| - 1;
    }
  }

  // ---- pending events are delivered ---------------------------------------------------------

  /** What a deliverer at this point does next, when its wait ends quietly. */
  function Drive(id: nat, pc: Pc): seq<Step> {
    match pc
    case Quieting => [Quiet(id), Take(id)]
    case Ready => [Take(id)]
    case Busy => [Inject(id), Quiet(id), Take(id)]
    case Leaving => []
  }

  lemma RunTwo(s: State, a: Step, b: Step)
    requires Enabled(s, a) && Enabled(Next(s, a), b)
    ensures Run(s, [a, b]) == Next(Next(s, a), b)
  {
    assert Front([a, b]) == [a] && Front([a]) == [];
    assert Run(s, [a]) == Next(s, a);
  }

  /**
   Until cancellation pending events always have a deliverer, and that deliverer alone, once
   the input is quiet, takes them all in at most three steps.
   */
  lemma {:induction false} PendingHasADeliverer(ms: seq<Step>)
    ensures var s := Run(START, ms);
            s.pending != [] && !s.cancelled ==>
              exists id :: id in s.running
                && var t := Run(s, Drive(id, s.running[id])); t.pending == [] && Flat(t.taken) == s.enqueued
  {
    RunKeeps(ms);
    var s := Run(START, ms);
    if s.pending != [] && !s.cancelled {
      var id :| id in s.running;
      DriveTakes(s, id);
    }
  }

  lemma DriveTakes(s: State, id: nat)
    requires Inv(s) && s.pending != [] && !s.cancelled && id in s.running
    ensures var t := Run(s, Drive(id, s.running[id])); t.pending == [] && Flat(t.taken) == s.enqueued
  {
    var steps := Drive(id, s.running[id]);
    var s1 := Run(s, Front(steps));
    assert s1.pending == s.pending && s1.taken == s.taken && At(s1, id, Ready) by {
      if s.running[id] == Busy {
        assert Front(steps) == [Inject(id), Quiet(id)];
        RunTwo(s, Inject(id), Quiet(id));
      } else if s.running[id] == Quieting {
        assert Front(steps) == [Quiet(id)] && Front([Quiet(id)]) == [];
        assert Run(s, []) == s;
      }
    }
    assert Front(s.taken + [s.pending]) == s.taken;
  }

  // ---- the critical sections --------------------------------------------------------------------

  /** The shared state; each method is one critical section, proved to be the step of the same name. */
  class NudgeDeliveryState {
    var pending: seq<Event>
    var delivering: bool

    predicate Matches(s: State)
      reads this
    {
      pending == s.pending && delivering == s.delivering
    }

    constructor ()
      ensures Matches(START)
    {
      pending, delivering := [], false;
    }

    /** start: the caller must start a deliverer. */
    method Enqueue(ghost s: State, events: seq<Event>) returns (start: bool)
      requires Matches(s)
      modifies this
      ensures Matches(Next(s, Step.Enqueue(events)))
      ensures start <==> Next(s, Step.Enqueue(events)).spawned == s.spawned + 1
    {
      pending := pending + events;
      if delivering {
        return false;
      }
      delivering := true;
      start := true;
    }

    /** The deliverer takes everything pending, or stops when there is nothing. */
    method TakeBatch(ghost s: State, ghost id: nat) returns (batch: seq<Event>, more: bool)
      requires Matches(s) && Enabled(s, Take(id))
      modifies this
      ensures Matches(Next(s, Take(id)))
      ensures more <==> id in Next(s, Take(id)).running
      ensures more ==> Next(s, Take(id)).taken == s.taken + [batch]
    {
      if |pending| == 0 {
        delivering := false;
        return [], false;
      }
      batch := pending;
      pending := [];
      more := true;
    }

    method Stop(ghost s: State, ghost id: nat)
      requires Matches(s) && Enabled(s, Leave(id))
      modifies this
      ensures Matches(Next(s, Leave(id)))
    {
      delivering := false;
    }
  }
}
