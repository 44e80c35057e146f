/**
 * The package state and its operations: the status `istiodOldStatus`, the resolved mesh
 * configuration `mc`, and `istiodHealth`, `cleanIptables`, `initIptables`, `SetFailed` and
 * `CheckIstioSystem` as methods that change that state.
 *
 * The world outside is made explicit: `answers` holds the answer the status endpoint gives to
 * each probe, in order, and `made` counts the probes made so far; `requested` records the URL of
 * every probe made; `launched` records every helper command started.
 */
module Health {
  import opened Wrappers
  import opened Probe
  import opened Config
  import opened Hysteresis

  /** `n` copies of `u`. */
  function Repeat(u: string, n: nat): (r: seq<string>)
    ensures |r| == n
    ensures forall i :: 0 <= i < n ==> r[i] == u
  {
    if n == 0 then [] else Repeat(u, n - 1) + [u]
  }

  lemma {:induction false} RepeatAdd(u: string, a: nat, b: nat)
    ensures Repeat(u, a) + Repeat(u, b) == Repeat(u, a + b)
    decreases b
  {
    if b > 0 {
      RepeatAdd(u, a, b - 1);
      assert Repeat(u, a) + (Repeat(u, b - 1) + [u]) == (Repeat(u, a) + Repeat(u, b - 1)) + [u];
    }
  }

  lemma ConcatAssociative<T>(a: seq<T>, b: seq<T>, c: seq<T>)
    ensures (a + b) + c == a + (b + c)
  {
  }

  /** Logs that held the outcome so far, extended by one more pass, hold the combined outcome. */
  lemma Extend(launched0: seq<Action>, requested0: seq<string>, url: string, done: Outcome, pass: Outcome,
               launched: seq<Action>, requested: seq<string>)
    requires launched == launched0 + done.launched + pass.launched
    requires requested == requested0 + Repeat(url, done.consumed) + Repeat(url, pass.consumed)
    ensures launched == launched0 + Then(done, pass).launched
    ensures requested == requested0 + Repeat(url, Then(done, pass).consumed)
  {
    ConcatAssociative(launched0, done.launched, pass.launched);
    ConcatAssociative(requested0, Repeat(url, done.consumed), Repeat(url, pass.consumed));
    RepeatAdd(url, done.consumed, pass.consumed);
  }

  /**
   * Package start-up: `init` resolves `mc` from the built-in defaults, PROXY_CONFIG and the YAML
   * parser, and the status starts READY; the prober then targets the address `init` resolved.
   */
  method Initialize(defaults: MeshConfig, proxyConfigEnv: string, applyYaml: string -> Option<ProxyConfig>,
                    script: seq<Response>)
    returns (h: HealthChecker)
    ensures fresh(h) && h.Valid() && h.status == ISTIOD_READY
    ensures h.answers == script && h.made == 0 && h.launched == [] && h.requested == []
    ensures proxyConfigEnv == "" ==>
      var address := defaults.defaultConfig.discoveryAddress;
      h.mc.defaultConfig.discoveryAddress == (if address == "" then DEFAULT_DISCOVERY_ADDRESS else address)
    ensures proxyConfigEnv != "" && applyYaml(proxyConfigEnv).Some? ==>
      var address := applyYaml(proxyConfigEnv).value.discoveryAddress;
      h.mc.defaultConfig.discoveryAddress == (if address == "" then DEFAULT_DISCOVERY_ADDRESS else address)
    ensures proxyConfigEnv != "" && applyYaml(proxyConfigEnv).None? ==> h.mc == defaults
  {
    var mc := Init(defaults, proxyConfigEnv, applyYaml);
    h := new HealthChecker(mc, script);
  }

  class HealthChecker {
    /** `mc`, written once by `init` (see `Initialize`) and only read afterwards. */
    const mc: MeshConfig
    /** The answer the status endpoint gives to each probe, in order. */
    const answers: seq<Response>
    /** `istiodOldStatus`. */
    var status: int
    /** The number of probes made so far. */
    var made: nat
    /** The helper commands started, in order. */
    var launched: seq<Action>
    /** The URL of every probe made, in order. */
    var requested: seq<string>

    /** The status holds one of its two constants, and no probe went beyond the answers. */
    predicate Valid()
      reads this
    {
      ValidStatus(status) && made <= |answers|
    }

    /** The URL `istiodHealth` probes. */
    function TargetUrl(): string
    {
      StatusUrl(mc.defaultConfig.discoveryAddress)
    }

    /** The package once `init` has resolved `config` as its `mc`: the status starts READY. */
    constructor (config: MeshConfig, script: seq<Response>)
      ensures Valid() && status == ISTIOD_READY
      ensures mc == config && answers == script && made == 0 && launched == [] && requested == []
    {
      mc := config;
      answers := script;
      status := ISTIOD_READY;
      made := 0;
      launched := [];
      requested := [];
    }

    /** `istiodHealth`: one GET of the status URL, classified by `httpProbe`. */
    method IstiodHealth() returns (err: Option<ProbeError>)
      requires made < |answers|
      modifies this`made, this`requested
      ensures err == HttpProbe(answers[old(made)]) && (err.Some? <==> Failed(answers[old(made)]))
      ensures made == old(made) + 1 && requested == old(requested) + [TargetUrl()]
      ensures old(Valid()) ==> Valid()
    {
      var discHost := Host(mc.defaultConfig.discoveryAddress);
      var url := "http://" + discHost + ":" + STATUS_PORT;
      requested := requested + [url];
      err := HttpProbe(answers[made]);
      ProbeFailsIff(answers[made]);
      made := made + 1;
    }

    /** `cleanIptables`: start the command that removes the interception rules, without waiting. */
    method StartCleanIptables()
      modifies this`launched
      ensures launched == old(launched) + [CleanIptables]
    {
      launched := launched + [CleanIptables];
    }

    /** `initIptables`: start the command that installs the interception rules, without waiting. */
    method StartInitIptables()
      modifies this`launched
      ensures launched == old(launched) + [InitIptables]
    {
      launched := launched + [InitIptables];
    }

    /** `SetFailed`: clean the rules and set NOTREADY, whatever the status was. */
    method SetFailed()
      modifies this`status, this`launched
      ensures old(Valid()) ==> Valid()
      ensures status == ISTIOD_NOTREADY
      ensures launched == old(launched) + [CleanIptables]
    {
      StartCleanIptables();
      status := ISTIOD_NOTREADY;
    }

    /** The READY branch of a pass: up to five probes, stopping at the first success. */
    method ReadyCheck()
      requires status == ISTIOD_READY && made + BURST <= |answers|
      modifies this
      ensures var o := ReadyBurst(answers, old(made));
        && status == o.status
        && launched == old(launched) + o.launched
        && made == old(made) + o.consumed
        && requested == old(requested) + Repeat(TargetUrl(), o.consumed)
      ensures old(Valid()) ==> Valid()
    {
      var down := true;
      var i := 0;
      while i < BURST
        invariant 0 <= i <= BURST && down && made == old(made) + i
        invariant forall j :: old(made) <= j < made ==> Failed(answers[j])
        invariant requested == old(requested) + Repeat(TargetUrl(), i)
        invariant status == old(status) && launched == old(launched)
      {
        var err := IstiodHealth();
        if err.None? {
          FirstStopIs(answers, false, old(made), old(made) + BURST, made - 1);
          down := false;
          break;
        }
        i := i + 1;
      }
      if down {
        FirstStopIs(answers, false, old(made), old(made) + BURST, made);
        StartCleanIptables();
        status := ISTIOD_NOTREADY;
      }
    }

    /** The NOTREADY branch of a pass: up to five probes, stopping at the first failure. */
    method NotReadyCheck()
      requires status == ISTIOD_NOTREADY && made + BURST <= |answers|
      modifies this
      ensures var o := NotReadyBurst(answers, old(made));
        && status == o.status
        && launched == old(launched) + o.launched
        && made == old(made) + o.consumed
        && requested == old(requested) + Repeat(TargetUrl(), o.consumed)
      ensures old(Valid()) ==> Valid()
    {
      var up := true;
      var i := 0;
      while i < BURST
        invariant 0 <= i <= BURST && up && made == old(made) + i
        invariant forall j :: old(made) <= j < made ==> !Failed(answers[j])
        invariant requested == old(requested) + Repeat(TargetUrl(), i)
        invariant status == old(status) && launched == old(launched)
      {
        var err := IstiodHealth();
        if err.Some? {
          FirstStopIs(answers, true, old(made), old(made) + BURST, made - 1);
          up := false;
          break;
        }
        i := i + 1;
      }
      if up {
        FirstStopIs(answers, true, old(made), old(made) + BURST, made);
        StartInitIptables();
        status := ISTIOD_READY;
      }
    }

    /**
     * One pass of the outer loop of `CheckIstioSystem`, as `Iterate` describes it: two separate
     * tests of the status, so that a pass that has just cleaned runs the recovery burst at once.
     */
    method Iteration()
      requires made + 2 * BURST <= |answers|
      modifies this
      ensures var o := Iterate(old(status), answers, old(made));
        && status == o.status
        && launched == old(launched) + o.launched
        && made == old(made) + o.consumed
        && requested == old(requested) + Repeat(TargetUrl(), o.consumed)
      ensures old(Valid()) ==> Valid()
    {
      if status == ISTIOD_READY {
        ReadyCheck();
      }
      ghost var afterReady := if old(status) == ISTIOD_READY then ReadyBurst(answers, old(made)) else Outcome(old(status), [], 0);
      if status == ISTIOD_NOTREADY {
        ghost var second := NotReadyBurst(answers, made);
        NotReadyCheck();
        assert launched == old(launched) + (afterReady.launched + second.launched) by {
          ConcatAssociative(old(launched), afterReady.launched, second.launched);
        }
        assert requested == old(requested) + Repeat(TargetUrl(), afterReady.consumed + second.consumed) by {
          ConcatAssociative(old(requested), Repeat(TargetUrl(), afterReady.consumed), Repeat(TargetUrl(), second.consumed));
          RepeatAdd(TargetUrl(), afterReady.consumed, second.consumed);
        }
      }
    }

    /** `CheckIstioSystem`, cut off after `rounds` passes of its endless outer loop. */
    method CheckIstioSystem(rounds: nat)
      requires made + 10 * rounds <= |answers|
      modifies this
      ensures var o := Run(old(status), answers, old(made), rounds);
        && status == o.status
        && launched == old(launched) + o.launched
        && made == old(made) + o.consumed
        && requested == old(requested) + Repeat(TargetUrl(), o.consumed)
      ensures old(Valid()) ==> Valid()
    {
      var k := 0;
      while k < rounds
        invariant 0 <= k <= rounds
        invariant var done := Run(old(status), answers, old(made), k);
          && status == done.status
          && launched == old(launched) + done.launched
          && made == old(made) + done.consumed
          && requested == old(requested) + Repeat(TargetUrl(), done.consumed)
      {
        ghost var done := Run(old(status), answers, old(made), k);
        ghost var pass := Iterate(done.status, answers, old(made) + done.consumed);
        RunStep(old(status), answers, old(made), k, pass);
        Iteration();
        Extend(old(launched), old(requested), TargetUrl(), done, pass, launched, requested);
        k := k + 1;
      }
    }
  }
}
