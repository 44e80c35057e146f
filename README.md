# Istio pilot-agent health monitor, modelled in Dafny

This project models the health monitor of the pilot-agent sidecar
(`pilot/cmd/pilot-agent/status/health/health.go`). The monitor probes the control plane
(istiod) over HTTP and keeps a two-valued status, `ISTIOD_READY` (1) or `ISTIOD_NOTREADY` (0),
that starts READY. `SetFailed` sets NOTREADY directly, without probing. Otherwise the status
changes only after a burst of five probes that all point the same way:
- While READY, five consecutive failed probes launch `istio-clean-iptables` and set NOTREADY.
- While NOTREADY, five consecutive good probes launch `istio-iptables` and set READY.
- A burst stops at its first probe that goes the other way.

The two status tests in the outer loop are independent `if`s, not an `if`/`else`. So one pass
can run both bursts: a pass that has just set NOTREADY runs a recovery burst at once. A pass that
has just set READY ends there.

Layout:

- `wrappers.dfy`: `Option`.
- `probe.dfy`: the pure rules.
  - `httpProbe`: which answers count as failures and which error they give.
  - The host and URL that `istiodHealth` builds from the discovery address.
- `config.dfy`: `init`, resolving the mesh configuration step by step. It reproduces the
  early return on a parse failure.
- `hysteresis.dfy`: the reference semantics of the monitor loop, as values.
  - `ReadyBurst` / `NotReadyBurst` model one burst, `Iterate` one pass of the outer loop and
    `Run` a number of passes.
  - Each gives the final status, the helper commands launched and the number of probes made.
  - Probes are read from a sequence of answers, starting at a given position.
  - The lemmas cover every branch, the flip discipline of the launch log, and whole runs.
- `health.dfy`: the package state as a class, `HealthChecker`.
  - Fields: `status` (`istiodOldStatus`), `mc`, the answer script and probe cursor `made`, and
    the logs `launched` and `requested`.
  - Methods: `istiodHealth`, `cleanIptables`, `initIptables`, `SetFailed`, the two burst loops
    with their `down`/`up` flags and `break`, one pass (`Iteration`) and `CheckIstioSystem`.
  - The loops (`ReadyCheck`, `NotReadyCheck`, `Iteration` and `CheckIstioSystem`) are proved
    against the matching functions of `hysteresis.dfy`. `IstiodHealth` is proved against
    `httpProbe`'s rule and the probed URL. `SetFailed` and the two launchers state their whole
    new state.
  - `Initialize` runs `init` and builds the checker from its result.

Environment made explicit:
- The status endpoint's answers are a fixed script `answers`. The k-th probe receives
  `answers[k]`, either a transport error or an HTTP status code.
- The helper processes are entries appended to `launched`.
- The URLs probed are entries appended to `requested`.
- For `init`, the inputs are parameters:
  - the built-in defaults (`mesh.DefaultMeshConfig()`);
  - the value of `PROXY_CONFIG` (`""` when unset);
  - the YAML parser, as a function returning `Option<ProxyConfig>`.

## Model

All source paths are relative to the repository root; the only source file is
`pilot/cmd/pilot-agent/status/health/health.go`.

| member | source | states |
|---|---|---|
| Probe.ProbeFailsIff | pilot/cmd/pilot-agent/status/health/health.go:33-45 | `httpProbe` returns an error exactly when the transport fails or the status is 500 or more. A transport error is passed on as is, and a bad status gives an error naming that status. An HTTP answer gives no error exactly when its status is below 500, so every 3xx and 4xx is healthy. |
| Probe.Host | pilot/cmd/pilot-agent/status/health/health.go:72 | `strings.Split(address, ":")[0]` is the prefix of the address up to its first colon. It contains no colon, is followed by a colon when shorter than the address, and is the whole address when there is no colon. |
| Probe.HostUnique | pilot/cmd/pilot-agent/status/health/health.go:72 | Those properties determine the host: every colon-free prefix that ends at a colon or at the end of the address is `Host`. |
| Probe.StatusUrlOfHostPort | pilot/cmd/pilot-agent/status/health/health.go:71-73 | For a discovery address `host:port`, or a bare `host`, the probed URL is `http://host:15014`, whatever the port was. |
| Config.Init | pilot/cmd/pilot-agent/status/health/health.go:47-69 | Resolution of `mc`. With no `PROXY_CONFIG` the defaults are kept, and only an empty discovery address is replaced by `istiod.istio-system.svc:15012`. A config that parses replaces the default proxy config wholesale, with the same fallback for its address. A parse failure returns before the fallback and leaves the defaults untouched. The address ends empty exactly in that last case with an empty default address. |
| Hysteresis.FirstStopSpec | pilot/cmd/pilot-agent/status/health/health.go:108-116 | The position where a burst breaks: every probe before it goes the way that continues the burst, and the probe there, if any, goes the way that stops it. |
| Hysteresis.FirstStopIs | pilot/cmd/pilot-agent/status/health/health.go:126-134 | Conversely, any position with that property is the one where the burst breaks. |
| Hysteresis.Iterate | pilot/cmd/pilot-agent/status/health/health.go:106-140 | One pass makes at least 1 and at most 10 probes and launches at most 2 commands. A status holding one of the two constants still holds one afterwards. Any other status makes no probe and launches nothing. |
| Hysteresis.Run | pilot/cmd/pilot-agent/status/health/health.go:105-143 | Any number of passes makes at most 10 probes and 2 launches per pass, and keeps the status one of the two constants. |
| Hysteresis.ReadyStopsAtFirstSuccess | pilot/cmd/pilot-agent/status/health/health.go:106-116 | While READY, a burst whose first success is probe `j` stops there. It launches nothing, stays READY and has made `j - at + 1` probes. |
| Hysteresis.ReadyFiveFailures | pilot/cmd/pilot-agent/status/health/health.go:106-140 | While READY, five failures launch the clean command once and set NOTREADY, and the same pass runs the recovery burst on the next five probes. Five successes there also launch the rebuild command and end READY after 10 probes. Otherwise the pass ends NOTREADY right after that burst's first failure. |
| Hysteresis.NotReadyStopsAtFirstFailure | pilot/cmd/pilot-agent/status/health/health.go:124-134 | While NOTREADY, a burst whose first failure is probe `j` stops there. It launches nothing, stays NOTREADY and has made `j - at + 1` probes. |
| Hysteresis.NotReadyFiveSuccesses | pilot/cmd/pilot-agent/status/health/health.go:124-140 | While NOTREADY, five successes launch the rebuild command exactly once and set READY. The pass ends after those five probes and does not re-enter the READY branch. |
| Hysteresis.CleanIffFiveFailures | pilot/cmd/pilot-agent/status/health/health.go:106-121 | From READY, a pass launches the clean command if and only if its first five probes all fail. |
| Hysteresis.InitIffFiveSuccesses | pilot/cmd/pilot-agent/status/health/health.go:124-139 | From NOTREADY, a pass never launches the clean command. It launches the rebuild command if and only if its first five probes all succeed. |
| Hysteresis.FlipLogAppend | pilot/cmd/pilot-agent/status/health/health.go:105-143 | Two chains of status flips that meet form one chain. This lets the per-pass flip property compose across passes. |
| Hysteresis.FlipLogAlternates | pilot/cmd/pilot-agent/status/health/health.go:117-139 | In a chain of flips, clean and rebuild launches alternate, and the last launch determines the final status. |
| Hysteresis.IterateFlips | pilot/cmd/pilot-agent/status/health/health.go:106-140 | In one pass each launch goes with a flip of the status (clean with READY to NOTREADY, rebuild with NOTREADY to READY), and each flip with its launch. |
| Hysteresis.RunFlips | pilot/cmd/pilot-agent/status/health/health.go:105-143 | Over any number of passes the launch log is exactly the chain of flips from the starting status to the final one. So the command launched never repeats the previous one. |
| Hysteresis.AllHealthyStaysReady | pilot/cmd/pilot-agent/status/health/health.go:105-143 | A control plane that never fails leaves the monitor READY, with one probe per pass and no launch. |
| Hysteresis.OutageStaysNotReady | pilot/cmd/pilot-agent/status/health/health.go:124-143 | While NOTREADY against a control plane that always fails, each pass makes one probe and launches nothing. |
| Hysteresis.OutageFirstPass | pilot/cmd/pilot-agent/status/health/health.go:106-134 | From READY against a failing control plane, the first pass makes five failing probes and cleans. Its recovery burst stops at the sixth probe. |
| Hysteresis.PersistentOutageCleansOnce | pilot/cmd/pilot-agent/status/health/health.go:105-143 | A control plane that never answers well is cleaned up exactly once, however many passes run. The monitor ends NOTREADY after `rounds + 5` probes. |
| Health.Initialize | pilot/cmd/pilot-agent/status/health/health.go:47-69 | Package start-up: `init` resolves `mc` and the checker starts READY with no probe made and nothing launched. The address `istiodHealth` probes is the one `init` resolved: with no `PROXY_CONFIG`, the default address or the fallback for an empty one; for a config that parses, its address or the fallback; on a parse failure, the defaults unchanged. |
| Health.HealthChecker.constructor | pilot/cmd/pilot-agent/status/health/health.go:27-30 | The package state once `init` has resolved `config` as `mc`: the status starts READY, with no probe made and nothing launched. |
| Health.HealthChecker.IstiodHealth | pilot/cmd/pilot-agent/status/health/health.go:71-79 | One probe of the status URL. It returns `httpProbe`'s verdict on the next answer, an error exactly when that probe failed, and records the URL probed. The status is untouched. |
| Health.HealthChecker.StartCleanIptables | pilot/cmd/pilot-agent/status/health/health.go:81-87 | `cleanIptables` launches the clean command once and changes nothing else. |
| Health.HealthChecker.StartInitIptables | pilot/cmd/pilot-agent/status/health/health.go:89-95 | `initIptables` launches the rebuild command once and changes nothing else. |
| Health.HealthChecker.SetFailed | pilot/cmd/pilot-agent/status/health/health.go:97-100 | Launches exactly one clean command and sets NOTREADY, whatever the status was, keeping the status one of the two constants. |
| Health.HealthChecker.ReadyCheck | pilot/cmd/pilot-agent/status/health/health.go:106-122 | The READY branch with its `down` flag and `break` ends exactly as `ReadyBurst` describes: status, launches, probes made and URLs probed. The status stays one of the two constants. |
| Health.HealthChecker.NotReadyCheck | pilot/cmd/pilot-agent/status/health/health.go:124-140 | The NOTREADY branch with its `up` flag and `break` ends exactly as `NotReadyBurst` describes. The status stays one of the two constants. |
| Health.HealthChecker.Iteration | pilot/cmd/pilot-agent/status/health/health.go:106-140 | One pass of the outer loop, with its two independent status tests. It changes the state exactly as `Iterate` describes and keeps the status one of the two constants. |
| Health.HealthChecker.CheckIstioSystem | pilot/cmd/pilot-agent/status/health/health.go:102-143 | `rounds` passes of the outer loop change the state exactly as `Run` describes, and keep the status one of the two constants. So every property proved about `Run` holds for the method's status and launch log. |

## Left out

- The HTTP client: `http.Get`, closing the response body and draining it (health.go:34-40). A probe's result is the next entry of the answer script.
- The text of the error built for a bad status: `ProbeError` keeps only the kind and the status code.
- Process spawning with `exec.Command(...).Start()` (health.go:81-95). A launch is an entry appended to `launched`. A failure to start is only logged in the source and changes no state, so it is not modelled.
- `time.Sleep` (health.go:115, 133, 142) and all logging through `healthLog`: they change no state.
- `env.RegisterStringVar`, `gogoprotomarshal.ApplyYAML` and `mesh.DefaultMeshConfig()`: parameters of `Init`. The default values inside `mesh.DefaultMeshConfig()` are not part of this model. So whether a malformed `PROXY_CONFIG` ends with the address `istiod.istio-system.svc:15012` depends on those defaults. The model states only that a parse failure keeps them unchanged.
- The other settings of `MeshConfig` and `ProxyConfig` are an opaque map carried along unchanged.
- Concurrency: `SetFailed` may run on another goroutine while `CheckIstioSystem` runs, without synchronisation. The model runs the methods one after another.
- The endless outer loop of `CheckIstioSystem`: `CheckIstioSystem(rounds)` runs a given number of passes.
- Health.HealthChecker.CheckIstioSystem: requires enough entries left in the answer script for `rounds` passes (10 per pass). The Iteration, ReadyCheck, NotReadyCheck and IstiodHealth methods likewise require enough answers left for their own probes. The source never runs out of answers, so this bounds the script, not the program.
- The commented-out single-probe loop (health.go:145-163): dead code.
- The package globals `istiodOldStatus` and `mc` are fields of one `HealthChecker` object. `mc` is a `const`, since nothing writes it after `init`. `Initialize` sets it from `Init`'s result; the constructor takes it as `config`.
