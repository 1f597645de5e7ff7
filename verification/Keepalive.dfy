/**
 The restart loop of the integrator: back off after a crash, park after three crashes in one
 rapid window. What each run of the child and each prompt brings is a script.
 */
module Keepalive {
  import opened Basics

  const MINUTE := 60_000_000_000
  const SECOND := 1_000_000_000

  /** The pause after the n-th failure in the list. */
  function Backoff(n: nat): int {
    if n <= 1 then SECOND else if n == 2 then 5 * SECOND else 15 * SECOND
  }

  /**
   One turn of the loop: the child's exit, the clock, whether the user asked to retry if
   prompted, and whether another integrator is seen holding the lease.
   */
  datatype Turn = Turn(code: int, error: bool, now: int, retry: bool, taken: bool)

  datatype Outcome = Running | Returned(code: int, error: bool)

  datatype Action = Park | Sleep(duration: int)

  /** The loop head: recent failures, everything done so far, and whether the loop has returned. */
  datatype Head = Head(failures: seq<int>, log: seq<Action>, outcome: Outcome)

  /** 128 plus SIGHUP, SIGINT or SIGTERM. */
  predicate TerminalStop(code: int) {
    code == 129 || code == 130 || code == 143
  }

  predicate Crashed(t: Turn) {
    !(t.code == 0 && !t.error) && !TerminalStop(t.code)
  }

  /** The times not before the cutoff, in order. */
  function Within(times: seq<int>, cutoff: int): (r: seq<int>)
    ensures |r| <= |times|
  {
    if times == [] then []
    else if Last(times) < cutoff then Within(Front(times), cutoff)
    else Within(Front(times), cutoff) + [Last(times)]
  }

  function AfterPark(h: Head, t: Turn): Head {
    if !t.retry then Head([], h.log + [Park], Returned(t.code, true))
    else Head([], h.log + [Park], if t.taken then Returned(0, false) else Running)
  }

  function AfterCrash(h: Head, t: Turn, window: int): Head {
    var failures := Within(h.failures, t.now - window) + [t.now];
    if |failures| >= 3 then AfterPark(h, t)
    else if t.taken then Head(failures, h.log, Returned(0, false))
    else Head(failures, h.log + [Sleep(Backoff(|failures|))], Running)
  }

  function Step(h: Head, t: Turn, window: int): Head {
    if h.outcome.Returned? then h
    else if Crashed(t) then AfterCrash(h, t, window)
    else h.(outcome := Returned(t.code, t.error))
  }

  /** The loop head after a script of turns. */
  function After(script: seq<Turn>, window: int): Head {
    if script == [] then Head([], [], Running) else Step(After(Front(script), window), Last(script), window)
  }

  function Window(configured: int): int {
    if configured <= 0 then MINUTE else configured
  }

  // ---- the loop -----------------------------------------------------------------------------

  lemma WithinNext(times: seq<int>, i: nat, cutoff: int)
    requires i < |times|
    ensures Within(times[..i + 1], cutoff) == Within(times[..i], cutoff) + if times[i] < cutoff then [] else [times[i]]
  {
    assert Front(times[..i + 1]) == times[..i];
  }

  /** Filter in place: the kept times move to the front of the same storage. */
  method FilterInPlace(failures: array<int>, n: nat, cutoff: int) returns (kept: nat)
    requires n <= failures.Length
    modifies failures
    ensures kept <= n && failures[..kept] == Within(old(failures[..n]), cutoff)
  {
    ghost var was := failures[..n];
    kept := 0;
    for i := 0 to n
      invariant kept <= i && failures[..kept] == Within(was[..i], cutoff)
      invariant forall k | i <= k < n :: failures[k] == was[k]
    {
      WithinNext(was, i, cutoff);
      if failures[i] >= cutoff {
        failures[kept] := failures[i];
        kept := kept + 1;
      }
    }
    assert was[..n] == was;
  }

  /** Drop the failures before the window and append this one. */
  method RecordFailure(failures: array<int>, n: nat, now: int, window: int) returns (m: nat)
    requires n < failures.Length
    modifies failures
    ensures 1 <= m <= n + 1 && failures[..m] == Within(old(failures[..n]), now - window) + [now]
  {
    var kept := FilterInPlace(failures, n, now - window);
    failures[kept] := now;
    m := kept + 1;
  }

  lemma AfterNext(script: seq<Turn>, i: nat, window: int)
    requires i < |script|
    ensures After(script[..i + 1], window) == Step(After(script[..i], window), script[i], window)
  {
    assert Front(script[..i + 1]) == script[..i];
  }

  /** Three slots are all the storage the loop ever needs. */
  method Loop(script: seq<Turn>, window: int) returns (outcome: Outcome, log: seq<Action>)
    ensures var h := After(script, window); outcome == h.outcome && log == h.log
  {
    log, outcome := [], Running;
    var failures := new int[3];
    var n, i := 0, 0;
    ghost var h := Head([], [], Running);
    while i < |script| && outcome == Running
      invariant 0 <= i <= |script| && 0 <= n <= 2
      invariant h == After(script[..i], window) && outcome == h.outcome && log == h.log
      invariant outcome == Running ==> h.failures == failures[..n]
    {
      var t := script[i];
      AfterNext(script, i, window);
      h := Step(h, t, window);
      i := i + 1;
      if !Crashed(t) {
        outcome := Returned(t.code, t.error);
        break;
      }
      n := RecordFailure(failures, n, t.now, window);
      var parked := false;
      if n >= 3 {
        n := 0;
        parked := true;
        log := log + [Park];
        if !t.retry {
          outcome := Returned(t.code, true);
          break;
        }
      }
      if t.taken {
        outcome := Returned(0, false);
        break;
      }
      if parked {
        continue;
      }
      log := log + [Sleep(Backoff(n))];
    }
    ReturnedStays(script, i, window);
  }

  /** Without keepalive the child runs once. */
  method RunKeepalive(script: seq<Turn>, rapidWindow: int, keepalive: bool) returns (outcome: Outcome, log: seq<Action>)
    ensures keepalive ==>
              var h := After(script, if rapidWindow > 0 then rapidWindow else 60_000_000_000);
              outcome == h.outcome && log == h.log
    ensures !keepalive && script != [] ==> outcome == Returned(script[0].code, script[0].error) && log == []
  {
    if keepalive {
      outcome, log := Loop(script, Window(rapidWindow));
      return;
    }
    log, outcome := [], Running;
    if |script| > 0 {
      outcome := Returned(script[0].code, script[0].error);
    }
  }

  lemma {:induction false} ReturnedStays(script: seq<Turn>, i: nat, window: int)
    requires i <= |script| && (i < |script| ==> After(script[..i], window).outcome.Returned?)
    ensures After(script, window) == After(script[..i], window)
    decreases |script|
  {
    if i == |script| {
      assert script[..i] == script;
    } else {
      assert Front(script)[..i] == script[..i];
      ReturnedStays(Front(script), i, window);
    }
  }

  // ---- the crash window -----------------------------------------------------------------------

  predicate Nondecreasing(script: seq<Turn>) {
    forall i, j | 0 <= i < j < |script| :: script[i].now <= script[j].now
  }

  /** The last turn of the script parked the loop. */
  predicate Parks(script: seq<Turn>, window: int) {
    script != [] && |After(script, window).log| == |After(Front(script), window).log| + 1
      && Last(After(script, window).log) == Park
  }

  /** Crash times since the last park: the whole list, however old. */
  function SincePark(script: seq<Turn>, window: int): seq<int> {
    if script == [] || Parks(script, window) then []
    else if Crashed(Last(script)) then SincePark(Front(script), window) + [Last(script).now]
    else SincePark(Front(script), window)
  }

  /** The latest crash since the last park. */
  function Recent(script: seq<Turn>, window: int): seq<int> {
    var crashes := SincePark(script, window);
    if crashes == [] then [] else Within(crashes, Last(crashes) - window)
  }

  lemma {:induction false} WithinTwice(times: seq<int>, a: int, b: int)
    requires a <= b
    ensures Within(Within(times, a), b) == Within(times, b)
  {
    if times != [] {
      WithinTwice(Front(times), a, b);
      var w := Within(Front(times), a);
      if Last(times) >= a { assert Front(w + [Last(times)]) == w; }
    }
  }

  lemma {:induction false} SinceParkBounds(script: seq<Turn>, window: int)
    ensures forall t | t in SincePark(script, window) :: exists k :: 0 <= k < |script| && script[k].now == t
  {
    if script != [] {
      SinceParkBounds(Front(script), window);
      forall t | t in SincePark(script, window) ensures exists k :: 0 <= k < |script| && script[k].now == t {
        if t in SincePark(Front(script), window) {
          var k :| 0 <= k < |Front(script)| && Front(script)[k].now == t;
          assert script[k].now == t;
        } else {
          assert script[|script| - 1].now == t;
        }
      }
    }
  }

  lemma LatestIsPast(script: seq<Turn>, window: int)
    requires script != [] && Nondecreasing(script) && SincePark(Front(script), window) != []
    ensures Last(SincePark(Front(script), window)) <= Last(script).now
  {
    var crashes := SincePark(Front(script), window);
    SinceParkBounds(Front(script), window);
    assert Last(crashes) in crashes;
    var k :| 0 <= k < |Front(script)| && Front(script)[k].now == Last(crashes);
    assert script[k].now <= Last(script).now;
  }

  /** Filtering what was kept gives what filtering everything gives. */
  lemma FilterAgrees(script: seq<Turn>, window: int)
    requires script != [] && Nondecreasing(script)
    ensures Within(Recent(Front(script), window), Last(script).now - window) ==
              Within(SincePark(Front(script), window), Last(script).now - window)
  {
    var crashes := SincePark(Front(script), window);
    if crashes != [] {
      LatestIsPast(script, window);
      assert Recent(Front(script), window) == Within(crashes, Last(crashes) - window);
      WithinTwice(crashes, Last(crashes) - window, Last(script).now - window);
    }
  }

  lemma WithinLast(times: seq<int>, x: int, cutoff: int)
    requires x >= cutoff
    ensures Within(times + [x], cutoff) == Within(times, cutoff) + [x]
  {
    assert Front(times + [x]) == times;
  }

  /** A crash parks the loop exactly when the filtered list has room for no more. */
  lemma ParksWhenThree(script: seq<Turn>, window: int)
    requires script != [] && After(Front(script), window).outcome == Running && Crashed(Last(script))
    ensures Parks(script, window) <==> |Within(After(Front(script), window).failures, Last(script).now - window)| >= 2
  {
  }

  lemma KeptWithoutPark(script: seq<Turn>, window: int)
    requires script != [] && Crashed(Last(script)) && !Parks(script, window) && window > 0
    ensures Recent(script, window) ==
              Within(SincePark(Front(script), window), Last(script).now - window) + [Last(script).now]
  {
    var crashes, now := SincePark(Front(script), window), Last(script).now;
    assert SincePark(script, window) == crashes + [now];
    WithinLast(crashes, now, now - window);
  }

  /**
   At each loop head the failure list, filtered incrementally and in place, is exactly the
   crashes since the last park within one window of the latest, and there are at most two.
   */
  lemma {:induction false} FailuresAreRecentCrashes(script: seq<Turn>, window: int)
    requires Nondecreasing(script) && window > 0 && After(script, window).outcome == Running
    ensures After(script, window).failures == Recent(script, window)
    ensures |Recent(script, window)| <= 2
  {
    if script != [] {
      var front, t := Front(script), Last(script);
      FailuresAreRecentCrashes(front, window);
      FilterAgrees(script, window);
      ParksWhenThree(script, window);
      if !Parks(script, window) { KeptWithoutPark(script, window); }
    }
  }

  /** A crash parks the loop exactly when it is at least the third within one window since the last park. */
  lemma ThirdRapidCrashParks(script: seq<Turn>, window: int)
    requires script != [] && Nondecreasing(script) && window > 0
    requires After(Front(script), window).outcome == Running && Crashed(Last(script))
    ensures var t := Last(script).now;
            Parks(script, window) <==> |Within(SincePark(Front(script), window) + [t], t - window)| >= 3
  {
    var front, t := Front(script), Last(script).now;
    FailuresAreRecentCrashes(front, window);
    FilterAgrees(script, window);
    ParksWhenThree(script, window);
    WithinLast(SincePark(front, window), t, t - window);
  }

  /** The kept times are those not before the cutoff. */
  lemma {:induction false} WithinIff(times: seq<int>, cutoff: int, x: int)
    ensures x in Within(times, cutoff) <==> x in times && x >= cutoff
  {
    if times != [] {
      WithinIff(Front(times), cutoff, x);
      assert times == Front(times) + [Last(times)];
    }
  }

  /** The child stopped neither in order (0 and no error) nor because the user hung up, interrupted or terminated it. */
  predicate Failed(t: Turn) {
    (t.code != 0 || t.error) && t.code !in {129, 130, 143}
  }

  /**
   What a turn does, by the crashes within one window since the last park, this one included: an orderly
   exit is passed on; a third crash parks, and only a retry goes on from there; a second one waits five
   seconds and a first one waits one; and nobody goes on while another integrator holds the lease.
   */
  lemma TurnTable(script: seq<Turn>, window: int)
    requires script != [] && Nondecreasing(script) && window > 0
    requires After(Front(script), window).outcome == Running
    ensures var t, was, is_ := Last(script), After(Front(script), window), After(script, window);
            var crashes := |Within(SincePark(Front(script), window) + [t.now], t.now - window)|;
            if !Failed(t) then is_.outcome == Returned(t.code, t.error) && is_.log == was.log
            else if crashes >= 3 then
              && is_.log == was.log + [Park]
              && is_.outcome == if !t.retry then Returned(t.code, true)
                                else if t.taken then Returned(0, false) else Running
            else if t.taken then is_.outcome == Returned(0, false) && is_.log == was.log
            else
              && is_.outcome == Running
              && is_.log == was.log + [Sleep(if crashes == 1 then 1_000_000_000 else 5_000_000_000)]
  {
    var front, t := Front(script), Last(script);
    if Failed(t) {
      FailuresAreRecentCrashes(front, window);
      FilterAgrees(script, window);
      WithinLast(SincePark(front, window), t.now, t.now - window);
    }
  }

  /** The third backoff is never used: every sleep is one or five seconds. */
  lemma {:induction false} OnlyShortBackoffs(script: seq<Turn>, window: int)
    ensures forall a | a in After(script, window).log :: a == Park || a == Sleep(SECOND) || a == Sleep(5 * SECOND)
  {
    if script != [] {
      OnlyShortBackoffs(Front(script), window);
    }
  }
}
