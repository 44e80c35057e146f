/**
 * The monitor loop of `CheckIstioSystem` as values: what one pass of the outer loop, and what
 * a number of passes, do to the status, which rule commands they launch and how many probes
 * they make. `p` holds the answers every probe gets, in order; a pass starts at probe `at`.
 */
module Hysteresis {
  import opened Probe

  /** The two values the status takes. */
  const ISTIOD_READY: int := 1
  const ISTIOD_NOTREADY: int := 0

  /** The number of attempts in a burst. */
  const BURST: nat := 5

  /** The helper commands the monitor launches: `istio-clean-iptables` and `istio-iptables`. */
  datatype Action = CleanIptables | InitIptables

  predicate ValidStatus(status: int)
  {
    status == ISTIOD_READY || status == ISTIOD_NOTREADY
  }

  /** The effect of running over the answers: the final status, the launches, the probes made. */
  datatype Outcome = Outcome(status: int, launched: seq<Action>, consumed: nat)

  /** `first`, then `second` on the probes after those of `first`. */
  function Then(first: Outcome, second: Outcome): Outcome
  {
    Outcome(second.status, first.launched + second.launched, first.consumed + second.consumed)
  }

  /**
   * The first probe in `[start, end)` whose failure is `stopOnFailure`, or `end` when there is
   * none: a burst over those probes that breaks there has made `FirstStop - start + 1` probes.
   */
  function FirstStop(p: seq<Response>, stopOnFailure: bool, start: nat, end: nat): (k: nat)
    requires start <= end <= |p|
    ensures start <= k <= end
    decreases end - start
  {
    if start == end || Failed(p[start]) == stopOnFailure then start
    else FirstStop(p, stopOnFailure, start + 1, end)
  }

  /** FirstStop is a stop: every probe before it is of the other kind, and the probe there (if any) is of the kind sought. */
  lemma {:induction false} FirstStopSpec(p: seq<Response>, stopOnFailure: bool, start: nat, end: nat)
    requires start <= end <= |p|
    ensures var k := FirstStop(p, stopOnFailure, start, end);
      && (forall i :: start <= i < k ==> Failed(p[i]) != stopOnFailure)
      && (k < end ==> Failed(p[k]) == stopOnFailure)
    decreases end - start
  {
    if start < end && Failed(p[start]) != stopOnFailure {
      FirstStopSpec(p, stopOnFailure, start + 1, end);
    }
  }

  /** Conversely, a position with that property is FirstStop. */
  lemma FirstStopIs(p: seq<Response>, stopOnFailure: bool, start: nat, end: nat, j: nat)
    requires start <= j <= end <= |p|
    requires forall i :: start <= i < j ==> Failed(p[i]) != stopOnFailure
    requires j < end ==> Failed(p[j]) == stopOnFailure
    ensures FirstStop(p, stopOnFailure, start, end) == j
  {
    FirstStopSpec(p, stopOnFailure, start, end);
  }

  /** The burst while READY: stop at the first success; five failures clean the rules and set NOTREADY. */
  function ReadyBurst(p: seq<Response>, at: nat): Outcome
    requires at + BURST <= |p|
  {
    var k := FirstStop(p, false, at, at + BURST);
    if k == at + BURST then Outcome(ISTIOD_NOTREADY, [CleanIptables], BURST)
    else Outcome(ISTIOD_READY, [], k - at + 1)
  }

  /** The burst while NOTREADY: stop at the first failure; five successes rebuild the rules and set READY. */
  function NotReadyBurst(p: seq<Response>, at: nat): Outcome
    requires at + BURST <= |p|
  {
    var k := FirstStop(p, true, at, at + BURST);
    if k == at + BURST then Outcome(ISTIOD_READY, [InitIptables], BURST)
    else Outcome(ISTIOD_NOTREADY, [], k - at + 1)
  }

  /**
   * One pass of the outer loop. The two branches are separate tests of the status, so a pass
   * that has just set NOTREADY runs the recovery burst at once.
   */
  function Iterate(status: int, p: seq<Response>, at: nat): (o: Outcome)
    requires at + 2 * BURST <= |p|
    ensures o.consumed <= 2 * BURST && |o.launched| <= 2
    ensures ValidStatus(status) ==> ValidStatus(o.status) && 1 <= o.consumed
    ensures !ValidStatus(status) ==> o == Outcome(status, [], 0)
  {
    if status == ISTIOD_READY then
      var down := ReadyBurst(p, at);
      if down.status == ISTIOD_NOTREADY then Then(down, NotReadyBurst(p, at + BURST)) else down
    else if status == ISTIOD_NOTREADY then NotReadyBurst(p, at)
    else Outcome(status, [], 0)
  }

  /**
   * `rounds` passes of the outer loop, each starting at the probe after the previous one's (at
   * most two bursts each): the passes before the last, then the last from where they stopped.
   */
  function Run(status: int, p: seq<Response>, at: nat, rounds: nat): (o: Outcome)
    requires at + 10 * rounds <= |p|
    ensures o.consumed <= 10 * rounds
    ensures |o.launched| <= 2 * rounds
    ensures ValidStatus(status) ==> ValidStatus(o.status)
    decreases rounds
  {
    if rounds == 0 then Outcome(status, [], 0)
    else
      var before := Run(status, p, at, rounds - 1);
      Then(before, Iterate(before.status, p, at + before.consumed))
  }

  /** One more pass, taken from where the passes so far stopped, extends their outcome. */
  lemma RunStep(status: int, p: seq<Response>, at: nat, rounds: nat, pass: Outcome)
    requires at + 10 * (rounds + 1) <= |p|
    requires var before := Run(status, p, at, rounds);
      pass == Iterate(before.status, p, at + before.consumed)
    ensures Run(status, p, at, rounds + 1) == Then(Run(status, p, at, rounds), pass)
  {
  }

  // ---------------------------------------------------------------------------------------------
  // One pass, branch by branch.

  /** While READY, a first success at probe `j` ends the burst: no launch, still READY, `j - at + 1` probes. */
  lemma ReadyStopsAtFirstSuccess(p: seq<Response>, at: nat, j: nat)
    requires at + 2 * BURST <= |p|
    requires at <= j < at + BURST && !Failed(p[j])
    requires forall i :: at <= i < j ==> Failed(p[i])
    ensures Iterate(ISTIOD_READY, p, at) == Outcome(ISTIOD_READY, [], j - at + 1)
  {
    FirstStopIs(p, false, at, at + BURST, j);
  }

  /**
   * While READY, five failures launch the clean command once and set NOTREADY, and the same pass
   * goes straight into a recovery burst on the next five probes: five successes there rebuild
   * the rules; otherwise the pass ends NOTREADY after that burst's first failure.
   */
  lemma ReadyFiveFailures(p: seq<Response>, at: nat)
    requires at + 2 * BURST <= |p|
    requires forall i :: at <= i < at + BURST ==> Failed(p[i])
    ensures var o := Iterate(ISTIOD_READY, p, at);
      var recovered := forall i :: at + BURST <= i < at + 2 * BURST ==> !Failed(p[i]);
      && o.launched == [CleanIptables] + (if recovered then [InitIptables] else [])
      && o.status == (if recovered then ISTIOD_READY else ISTIOD_NOTREADY)
      && o.consumed == BURST + (if recovered then BURST else FirstStop(p, true, at + BURST, at + 2 * BURST) - at - BURST + 1)
  {
    FirstStopIs(p, false, at, at + BURST, at + BURST);
    FirstStopSpec(p, true, at + BURST, at + 2 * BURST);
  }

  /** While NOTREADY, a first failure at probe `j` ends the burst: no launch, still NOTREADY, `j - at + 1` probes. */
  lemma NotReadyStopsAtFirstFailure(p: seq<Response>, at: nat, j: nat)
    requires at + 2 * BURST <= |p|
    requires at <= j < at + BURST && Failed(p[j])
    requires forall i :: at <= i < j ==> !Failed(p[i])
    ensures Iterate(ISTIOD_NOTREADY, p, at) == Outcome(ISTIOD_NOTREADY, [], j - at + 1)
  {
    FirstStopIs(p, true, at, at + BURST, j);
  }

  /** While NOTREADY, five successes launch the rebuild command once and set READY; the pass ends there. */
  lemma NotReadyFiveSuccesses(p: seq<Response>, at: nat)
    requires at + 2 * BURST <= |p|
    requires forall i :: at <= i < at + BURST ==> !Failed(p[i])
    ensures Iterate(ISTIOD_NOTREADY, p, at) == Outcome(ISTIOD_READY, [InitIptables], BURST)
  {
    FirstStopIs(p, true, at, at + BURST, at + BURST);
  }

  /** From READY, the clean command is launched in a pass exactly when its first five probes all fail. */
  lemma CleanIffFiveFailures(p: seq<Response>, at: nat)
    requires at + 2 * BURST <= |p|
    ensures CleanIptables in Iterate(ISTIOD_READY, p, at).launched
        <==> forall i :: at <= i < at + BURST ==> Failed(p[i])
  {
    var k := FirstStop(p, false, at, at + BURST);
    FirstStopSpec(p, false, at, at + BURST);
    if k < at + BURST {
      ReadyStopsAtFirstSuccess(p, at, k);
    } else {
      ReadyFiveFailures(p, at);
    }
  }

  /** From NOTREADY, a pass never cleans, and rebuilds exactly when its first five probes all succeed. */
  lemma InitIffFiveSuccesses(p: seq<Response>, at: nat)
    requires at + 2 * BURST <= |p|
    ensures CleanIptables !in Iterate(ISTIOD_NOTREADY, p, at).launched
    ensures InitIptables in Iterate(ISTIOD_NOTREADY, p, at).launched
        <==> forall i :: at <= i < at + BURST ==> !Failed(p[i])
  {
    var k := FirstStop(p, true, at, at + BURST);
    FirstStopSpec(p, true, at, at + BURST);
    if k < at + BURST {
      NotReadyStopsAtFirstFailure(p, at, k);
    } else {
      NotReadyFiveSuccesses(p, at);
    }
  }

  // ---------------------------------------------------------------------------------------------
  // Every launch is a flip.

  /**
   * The launch log, read from status `from`, is a chain of genuine flips ending at `to`:
   * each clean leaves READY for NOTREADY, each rebuild leaves NOTREADY for READY.
   */
  predicate FlipLog(from: int, log: seq<Action>, to: int)
    decreases |log|
  {
    if log == [] then from == to
    else match log[0]
      case CleanIptables => from == ISTIOD_READY && FlipLog(ISTIOD_NOTREADY, log[1..], to)
      case InitIptables => from == ISTIOD_NOTREADY && FlipLog(ISTIOD_READY, log[1..], to)
  }

  /** Two chains of flips that meet make one chain. */
  lemma {:induction false} FlipLogAppend(from: int, first: seq<Action>, mid: int, second: seq<Action>, to: int)
    requires FlipLog(from, first, mid) && FlipLog(mid, second, to)
    ensures FlipLog(from, first + second, to)
    decreases |first|
  {
    if first == [] {
      assert first + second == second;
    } else {
      assert (first + second)[0] == first[0];
      assert (first + second)[1..] == first[1..] + second;
      var next := if first[0] == CleanIptables then ISTIOD_NOTREADY else ISTIOD_READY;
      FlipLogAppend(next, first[1..], mid, second, to);
    }
  }

  /** In a chain of flips the two commands alternate, and the last one launched says where the chain ends. */
  lemma {:induction false} FlipLogAlternates(from: int, log: seq<Action>, to: int)
    requires FlipLog(from, log, to)
    ensures forall i :: 0 <= i < |log| - 1 ==> log[i] != log[i + 1]
    ensures log != [] ==> to == (if log[|log| - 1] == CleanIptables then ISTIOD_NOTREADY else ISTIOD_READY)
    decreases |log|
  {
    if log != [] {
      var next := if log[0] == CleanIptables then ISTIOD_NOTREADY else ISTIOD_READY;
      FlipLogAlternates(next, log[1..], to);
      if |log| > 1 {
        assert log[1..][0] == log[1];
        assert log[1] == CleanIptables ==> next == ISTIOD_READY;
        assert log[1] == InitIptables ==> next == ISTIOD_NOTREADY;
      }
      forall i | 1 <= i < |log| - 1 ensures log[i] != log[i + 1] {
        assert log[1..][i - 1] == log[i] && log[1..][i] == log[i + 1];
      }
    }
  }

  /** Every launch in one pass accompanies a flip, and every flip has its launch. */
  lemma IterateFlips(status: int, p: seq<Response>, at: nat)
    requires at + 2 * BURST <= |p| && ValidStatus(status)
    ensures FlipLog(status, Iterate(status, p, at).launched, Iterate(status, p, at).status)
  {
    if status == ISTIOD_READY {
      var k := FirstStop(p, false, at, at + BURST);
      FirstStopSpec(p, false, at, at + BURST);
      if k < at + BURST {
        ReadyStopsAtFirstSuccess(p, at, k);
      } else {
        ReadyFiveFailures(p, at);
        var recovered := forall i :: at + BURST <= i < at + 2 * BURST ==> !Failed(p[i]);
        if recovered {
          assert [CleanIptables] + [InitIptables] == [CleanIptables, InitIptables];
          assert [CleanIptables, InitIptables][1..] == [InitIptables];
        } else {
          assert [CleanIptables] + [] == [CleanIptables];
        }
      }
    } else {
      var k := FirstStop(p, true, at, at + BURST);
      FirstStopSpec(p, true, at, at + BURST);
      if k < at + BURST {
        NotReadyStopsAtFirstFailure(p, at, k);
      } else {
        NotReadyFiveSuccesses(p, at);
      }
    }
  }

  /** Over any number of passes, the launch log is exactly the chain of flips from the first to the last status. */
  lemma {:induction false} RunFlips(status: int, p: seq<Response>, at: nat, rounds: nat)
    requires at + 10 * rounds <= |p| && ValidStatus(status)
    ensures FlipLog(status, Run(status, p, at, rounds).launched, Run(status, p, at, rounds).status)
    decreases rounds
  {
    if rounds > 0 {
      var before := Run(status, p, at, rounds - 1);
      var last := Iterate(before.status, p, at + before.consumed);
      assert FlipLog(status, before.launched, before.status) by {
        RunFlips(status, p, at, rounds - 1);
      }
      assert FlipLog(before.status, last.launched, last.status) by {
        IterateFlips(before.status, p, at + before.consumed);
      }
      FlipLogAppend(status, before.launched, before.status, last.launched, last.status);
      assert Run(status, p, at, rounds) == Then(before, last);
    }
  }

  // ---------------------------------------------------------------------------------------------
  // Whole runs.

  /** A control plane that always answers below 500 leaves the monitor READY: one probe per pass, no launch. */
  lemma {:induction false} AllHealthyStaysReady(p: seq<Response>, at: nat, rounds: nat)
    requires at + 10 * rounds <= |p|
    requires forall i :: at <= i < |p| ==> !Failed(p[i])
    ensures Run(ISTIOD_READY, p, at, rounds) == Outcome(ISTIOD_READY, [], rounds)
    decreases rounds
  {
    if rounds > 0 {
      AllHealthyStaysReady(p, at, rounds - 1);
      ReadyStopsAtFirstSuccess(p, at + rounds - 1, at + rounds - 1);
    }
  }

  /** While NOTREADY and the control plane never answers well, each pass makes one probe and launches nothing. */
  lemma {:induction false} OutageStaysNotReady(p: seq<Response>, at: nat, rounds: nat)
    requires at + 10 * rounds <= |p|
    requires forall i :: at <= i < |p| ==> Failed(p[i])
    ensures Run(ISTIOD_NOTREADY, p, at, rounds) == Outcome(ISTIOD_NOTREADY, [], rounds)
    decreases rounds
  {
    if rounds > 0 {
      OutageStaysNotReady(p, at, rounds - 1);
      NotReadyStopsAtFirstFailure(p, at + rounds - 1, at + rounds - 1);
    }
  }

  /** A first pass against a failing control plane: five failures, clean, and a recovery burst that stops at once. */
  lemma OutageFirstPass(p: seq<Response>, at: nat)
    requires at + 2 * BURST <= |p|
    requires forall i :: at <= i < at + 2 * BURST ==> Failed(p[i])
    ensures Iterate(ISTIOD_READY, p, at) == Outcome(ISTIOD_NOTREADY, [CleanIptables], BURST + 1)
  {
    ReadyFiveFailures(p, at);
    FirstStopIs(p, true, at + BURST, at + 2 * BURST, at + BURST);
  }

  /**
   * A control plane that never answers well is cleaned up exactly once: the first pass makes five
   * failing probes, cleans, and its recovery burst stops at the sixth; every later pass makes one.
   */
  lemma {:induction false} PersistentOutageCleansOnce(p: seq<Response>, at: nat, rounds: nat)
    requires rounds >= 1 && at + 10 * rounds <= |p|
    requires forall i :: at <= i < |p| ==> Failed(p[i])
    ensures Run(ISTIOD_READY, p, at, rounds) == Outcome(ISTIOD_NOTREADY, [CleanIptables], rounds + BURST)
    decreases rounds
  {
    if rounds == 1 {
      OutageFirstPass(p, at);
      assert Run(ISTIOD_READY, p, at, 1) == Then(Outcome(ISTIOD_READY, [], 0), Iterate(ISTIOD_READY, p, at));
      assert [] + [CleanIptables] == [CleanIptables];
    } else {
      var before := Run(ISTIOD_READY, p, at, rounds - 1);
      assert before == Outcome(ISTIOD_NOTREADY, [CleanIptables], rounds - 1 + BURST) by {
        PersistentOutageCleansOnce(p, at, rounds - 1);
      }
      var last := Iterate(ISTIOD_NOTREADY, p, at + before.consumed);
      assert last == Outcome(ISTIOD_NOTREADY, [], 1) by {
        NotReadyStopsAtFirstFailure(p, at + before.consumed, at + before.consumed);
      }
      assert Run(ISTIOD_READY, p, at, rounds) == Then(before, last);
      assert [CleanIptables] + [] == [CleanIptables];
    }
  }
}
