# Myco controllers — a Dafny model of the decision logic

The repository's Ryu OpenFlow controllers defend a small Mininet network with
three "Myco" strategies. Scout isolates a misbehaving host. Box quarantines or
sandboxes it. Swap replaces a service host by a standby proxy. This project
models the decision logic of the seven controller applications and proves what
each one promises.

The seven controllers:

- **myco_barrier_logic.py** (`barrier_logic.dfy`): per-packet barrier pipeline.
  - It screens each source against a quarantine table with a two-step
    verification queue.
  - It counts frames per (switch, source) in a fixed one-second window.
  - A source that sends more than 30 frames in one window is isolated for 10
    seconds. All other frames are L2-forwarded.
- **myco_final_controller.py** (`final_controller.dfy`): the one-step
  ALLOW / DROP / REINTEGRATE security check, the same detection, and load
  offload of frames for h1 (`00:00:00:00:00:01`) to h2 (`00:00:00:00:00:02`).
- **resource_monitor.py** (`resource_monitor.dfy`): the same pipeline with a
  configured strategy.
  - SWAP: a detection switches the proxy replacement on.
  - SCOUT and BOX: frames for h1 are retargeted once more than 20 have been seen
    in one window.
- **myco_box_controller.py** (`box_controller.dfy`): a permanent blacklist. The
  blacklist only grows.
- **myco_ryu.py** (`myco_ryu.dfy`) and **myco_controller_v2.py**
  (`controller_v2.dfy`): a learning switch whose defence is chosen by
  `MYCO_MODE`. The model proves the two take the same step on every frame.
- **myco_controller_gpt.py** (`orchestrator.dfy`): the event orchestrator.
  - A REST request starts one strategy event at a time.
  - Every rule the event installs is tagged with the event's cookie.
  - Ending the event deletes every rule with that cookie from every switch.
    The cookie is `int(time.time() * 1000)`, always positive, and the model
    takes it as a positive parameter. The table-miss and learned rules carry
    cookie 0, so the cleanup leaves them in place.
  - ARP requests for the target are meant to be answered with the proxy's MAC.
    As written, the handler raises before it answers (see "## Findings").
  - Echo probes are tracked by (switch, xid).

Shared pieces:

- `openflow.dfy`: the messages and the rule builders.
- `rate_window.dfy`: the one-second counter window.
- `quarantine.dfy`: both verification state machines.

How the model is built:

- Each Ryu application is a Dafny `class` with the source's fields. Every
  `send_msg` appends a `Message` to an `outbox` sequence.
- The class methods are proved against pure `Step` functions of the state:
  after each method, `Snapshot()` is the next state of `Step` and `outbox` has
  grown by the messages of `Step`.
- The properties are lemmas about those functions. Most are stated for one
  frame. Some cover a whole sequence of frames (`Run`): `RunKeepsQueueInTable`,
  `QuarantinedWithinWindow`, `FloodIsolatesWithinWindow`,
  `BelowThresholdNeverIsolated`, `RunKeepsBans` and `SwapLoadCountsServerFrames`.
- `time.time()` becomes a `now: real` parameter.
- The verification draw (`random.choice`, `random.random() < INFECTION_RATE`)
  becomes a boolean parameter.
- The nested dictionaries `{dpid: {mac: v}}` become maps keyed by
  `(dpid, mac)`.

Where the code and its documentation disagree, the model follows the code:

- A failed verification in myco_barrier_logic.py keeps the MAC in
  `vpa_verification_queue` (lines 111-115). Every later check of that MAC
  therefore runs a trial as soon as its extended timer is over.
- The strategy names the REST endpoint accepts are `myco_scout`, `myco_box` and
  `myco_swap` (myco_controller_gpt.py:79).
- `_auto_end_event` does not check that the event it ends is the one it was
  spawned for (lines 339-346).

## Model

| member | source | states |
|---|---|---|
| OpenFlow.FlowBuffer | myco_barrier_logic.py:41-49 | `buffer_id or OFP_NO_BUFFER`: a missing or zero buffer id becomes OFP_NO_BUFFER, any other id is kept |
| OpenFlow.TableMiss | myco_barrier_logic.py:34-38 | a priority-0, match-all, cookie-0 rule with no timeouts whose only action sends the frame to the controller |
| OpenFlow.DropSource | myco_barrier_logic.py:71-77 | the isolation rule is a priority-100 drop (empty actions) matching eth_src, with the given hard timeout and no idle timeout |
| OpenFlow.FrameOut | myco_barrier_logic.py:175-181 | the packet-out re-injects the frame on its own buffer and ingress port, carrying the bytes only when the switch did not buffer it |
| OpenFlow.L2Forward | myco_barrier_logic.py:156-181 | toward a learned port: one priority-1 rule, plus a packet-out only for an unbuffered frame; toward an unknown destination: one flood packet-out and no rule; never a drop rule |
| OpenFlow.Offload | myco_final_controller.py:171-189 | the redirect is a priority-50, idle-1/hard-1 rule matching in_port and the original eth_dst, rewriting eth_dst to h2 with NORMAL output, plus a packet-out of the frame with the same actions |
| RateWindow.Tick | myco_ryu.py:69-80 | an expired window (more than 1 s) is emptied and reopened at `now`; the key's count rises by exactly one; no other key changes; the returned count is the post-increment count |
| Quarantine.Reintegration | myco_barrier_logic.py:82-117 | unquarantined passes unchanged; before or at the release time it is refused unchanged; the first check after expiry only queues the MAC; a trial on a queued MAC releases it from both table and queue or extends it by exactly 5 s; release happens only through a successful trial; other MACs are untouched; the queue stays inside the table |
| Quarantine.SecurityCheck | myco_final_controller.py:84-105 | ALLOW exactly for an unquarantined MAC, table unchanged; DROP unchanged strictly before release; from the release instant a failed trial extends by 5 s (DROP) and a passed one deletes the entry (REINTEGRATE); other MACs are untouched |
| Quarantine.BoundaryDiffers | myco_final_controller.py:91-92 | at the release instant itself the two-step check still refuses without a trial, while the one-step check already runs one |
| Quarantine.FailedTrialStaysQueued | myco_barrier_logic.py:104-115 | after a failed trial the MAC stays queued and quarantined, and the next check past the extended time decides by the trial alone |
| BarrierLogic.Isolate | myco_barrier_logic.py:54-77 | an already isolated MAC changes nothing and sends nothing; otherwise release = now + 10 and one priority-100 eth_src drop rule with hard timeout 10; the queue stays inside the table |
| BarrierLogic.Step | myco_barrier_logic.py:120-131 | LLDP frames change nothing and send nothing; every frame keeps the verification queue inside the quarantine table |
| BarrierLogic.RefusedFrameIgnored | myco_barrier_logic.py:137-139 | a frame refused by the reintegration check is neither counted nor learned, and nothing is sent |
| BarrierLogic.DetectionIsolates | myco_barrier_logic.py:141-153 | the frame whose post-increment count exceeds 30 isolates its source until now + 10 with one drop rule, and is neither learned nor forwarded |
| BarrierLogic.BelowThresholdForwarded | myco_barrier_logic.py:156-181 | a frame at or below the threshold learns src on its ingress port and is forwarded with idle-5 rules, its source left unquarantined |
| BarrierLogic.RunKeepsQueueInTable | myco_barrier_logic.py:96-109 | over any sequence of frames the verification queue remains a subset of the quarantine table |
| BarrierLogic.QuarantinedWithinWindow | myco_barrier_logic.py:137-139 | for any sequence of frames inside one window, a source quarantined until beyond the window keeps its quarantine entry, its counts, its learned ports and its pending-trial status: every one of its frames is refused |
| BarrierLogic.FloodIsolatesWithinWindow | myco_barrier_logic.py:141-153 | for any sequence of frames inside one window, from any switches and mixed with other sources and LLDP: an unquarantined source with every per-switch count at or below 30, whose count on some switch passes 30, ends up quarantined; the quarantine comes from the first frame that takes any of its per-switch counts to 31, with release = that frame's time + 10, and the window does not restart |
| BarrierLogic.BelowThresholdNeverIsolated | myco_barrier_logic.py:141-153 | for any sequence of frames inside one window, from any switches: while the source's count on every switch (its count plus its frames counted there) stays at or below 30, it is never quarantined and each per-switch count grows by exactly its frames counted on that switch |
| BarrierLogic.StepSparesOtherSource | myco_barrier_logic.py:120-153 | inside the window, an LLDP frame or a frame from another source leaves a source's quarantine entry, counts, learned ports and pending status as they were |
| BarrierLogic.StepCountsSource | myco_barrier_logic.py:141-145 | inside the window, a counted frame of an unquarantined source that stays at or below 30 raises its count by one and does not quarantine it |
| BarrierLogic.StepIsolatesSource | myco_barrier_logic.py:141-153 | inside the window, the frame that takes an unquarantined source over 30 quarantines it until that frame's time + 10 |
| BarrierLogic.StepCountsEverySwitch | myco_barrier_logic.py:141-145 | inside the window, a frame that takes no count of an unquarantined source over 30 leaves it unquarantined, raises its count by one on the frame's switch if counted there and leaves its counts on every other switch unchanged |
| BarrierLogic.Forwarding | myco_barrier_logic.py:156-181 | the source is learned on its ingress port, no other learned port changes, nothing but the port table changes, and no drop rule is sent |
| BarrierLogic.RecoveryTakesTwoChecks | myco_barrier_logic.py:94-110 | after expiry the first frame only queues the source and is dropped; a later frame with a successful trial releases it, is counted once and is learned |
| BarrierLogic.MycoBarrierLogic.constructor | myco_barrier_logic.py:15-27 | all tables empty, the window opened at the start time |
| BarrierLogic.MycoBarrierLogic.SwitchFeatures | myco_barrier_logic.py:29-39 | sends the table-miss rule and changes no state |
| BarrierLogic.MycoBarrierLogic.IsolateNode | myco_barrier_logic.py:54-77 | the new state and the rules sent are those of `Isolate` |
| BarrierLogic.MycoBarrierLogic.CheckReintegration | myco_barrier_logic.py:82-117 | result, table and queue are those of `Reintegration`; counters, learning table and outbox are unchanged |
| BarrierLogic.MycoBarrierLogic.PacketIn | myco_barrier_logic.py:119-153 | the new state and the messages are those of `Step` |
| BarrierLogic.MycoBarrierLogic.ForwardFrame | myco_barrier_logic.py:156-181 | the new state and the messages are those of `Forwarding` (learn, then `L2Forward` with idle 5) |
| FinalController.Step | myco_final_controller.py:118-119 | LLDP frames change nothing and send nothing |
| FinalController.Forwarding | myco_final_controller.py:157-210 | the source is learned on its ingress port, the server load rises by one exactly for a frame for a known h1, nothing else in the state changes, and no drop rule is sent |
| FinalController.DropIgnoresFrame | myco_final_controller.py:126-128 | a DROP frame is not counted, learned or forwarded; only the check's table change survives |
| FinalController.ReintegrateActsLikeAllow | myco_final_controller.py:126-128 | a REINTEGRATE frame takes exactly the step it would take had its source never been quarantined |
| FinalController.WindowResetClearsLoad | myco_final_controller.py:131-136 | a window reset leaves only this frame's key counted (once), reopens the window at now and the server load at most 1 |
| FinalController.DetectionQuarantines | myco_final_controller.py:142-149 | a count above 30 quarantines the source until now + 10, sends one drop rule with hard 10, learns nothing; the source had no record before |
| FinalController.OffloadExactlyForLoadedServer | myco_final_controller.py:157-202 | only frames to a known h1 raise the load; a frame is offloaded iff it goes to a known h1 and the new load exceeds 50; otherwise it is L2-forwarded with idle 5 |
| FinalController.MycoFinalController.constructor | myco_final_controller.py:18-36 | all tables empty, load 0, the window opened at the start time |
| FinalController.MycoFinalController.SwitchFeatures | myco_final_controller.py:62-71 | sends the table-miss rule and changes no state |
| FinalController.MycoFinalController.CheckSecurityStatus | myco_final_controller.py:84-105 | verdict and table are those of `SecurityCheck`; nothing else changes |
| FinalController.MycoFinalController.PacketIn | myco_final_controller.py:107-149 | the new state and the messages are those of `Step` |
| FinalController.MycoFinalController.CountFrame | myco_final_controller.py:131-140 | the counts and window become those of the one-second window step, the server load is cleared exactly when the window restarts, the count returned is the frame's new count, and the port table, quarantine list and outbox are unchanged |
| FinalController.MycoFinalController.ForwardFrame | myco_final_controller.py:157-210 | the new state and the messages are those of `Forwarding` |
| ResourceMonitor.Retarget | resource_monitor.py:186-205 | only frames for h1 are retargeted, only to h2; SWAP: load untouched, retargeted iff the replacement is on; SCOUT/BOX: every frame for h1 raises the load, retargeted iff the new load exceeds 20 |
| ResourceMonitor.Deliver | resource_monitor.py:207-237 | nothing sent is a drop rule and all goes to the frame's switch; every rule is a priority-1, idle-2, cookie-0 rule matching in_port, the original src and the original dst; a known final destination gets one rule (plus a packet-out of the frame when unbuffered) whose actions end in an output to its learned port and start with a SetField eth_dst exactly when the destination was retargeted; an unknown one is flooded unmodified, carrying the frame only when unbuffered |
| ResourceMonitor.Step | resource_monitor.py:142 | LLDP frames change nothing and send nothing |
| ResourceMonitor.Forwarding | resource_monitor.py:186-237 | the source is learned on its ingress port, the server load rises by one exactly for a frame for h1 under SCOUT or BOX, nothing else in the state changes, and no drop rule is sent |
| ResourceMonitor.ReintegrationEndsSwap | resource_monitor.py:123-129 | in SWAP a reintegration switches the proxy replacement off for the rest of the frame unless that frame is itself detected |
| ResourceMonitor.DetectionQuarantines | resource_monitor.py:164-181 | a count above 30 quarantines until now + 10 with one drop rule (hard 10), discards the frame, and in SWAP switches the replacement on (idempotently); SCOUT/BOX leave it |
| ResourceMonitor.WindowResetClearsLoad | resource_monitor.py:153-157 | a window reset clears the counts and the server load |
| ResourceMonitor.SwapRetargetsOnlyServer | resource_monitor.py:190-194 | while SWAP is on, frames for h1 are delivered to h2 and every other destination unchanged; the load is untouched; a frame for h1 with h2's port known is sent by exactly [SetField eth_dst=h2, output to h2's port], and a frame for any other MAC carries no SetField at all |
| ResourceMonitor.MycoUniversalController.constructor | resource_monitor.py:18-45 | all tables empty, load 0, replacement off, the configured strategy |
| ResourceMonitor.MycoUniversalController.SwitchFeatures | resource_monitor.py:92-99 | sends the table-miss rule and changes no state |
| ResourceMonitor.MycoUniversalController.CheckSecurityStatus | resource_monitor.py:111-130 | verdict and table are those of `SecurityCheck`; a SWAP reintegration clears the replacement flag |
| ResourceMonitor.MycoUniversalController.PacketIn | resource_monitor.py:132-181 | the new state and the messages are those of `Step` |
| ResourceMonitor.MycoUniversalController.CountFrame | resource_monitor.py:153-161 | the counts, window start and returned count are those of `Tick`; an expired window also clears the server load; nothing else changes |
| ResourceMonitor.MycoUniversalController.QuarantineSource | resource_monitor.py:169-179 | quarantines the source until now + 10, appends one drop rule for it with hard timeout 10, and in SWAP switches the replacement on; nothing else changes |
| ResourceMonitor.MycoUniversalController.ForwardFrame | resource_monitor.py:183-209 | the new state and the messages are those of `Forwarding` |
| ResourceMonitor.MycoUniversalController.SendToward | resource_monitor.py:211-237 | appends exactly `Deliver` toward the final destination and changes no state |
| BoxController.Block | myco_box_controller.py:54-71 | the blacklist becomes blacklist + {src}; nothing is sent iff src was already banned; otherwise one permanent (idle 0, hard 0) priority-100 eth_src drop rule |
| BoxController.Step | myco_box_controller.py:84-85 | LLDP frames change nothing and send nothing |
| BoxController.EveryFrameCounted | myco_box_controller.py:91-101 | every non-LLDP frame is counted, a banned source's included |
| BoxController.OverThresholdNotForwarded | myco_box_controller.py:103-106 | the frame over 20 bans its source, is not learned, and sends at most the drop rule (none iff already banned) |
| BoxController.BlacklistedSilenced | myco_box_controller.py:108-109 | a banned source's frame is neither learned nor answered |
| BoxController.CleanSourceForwarded | myco_box_controller.py:112-136 | a clean source at or below 20 is learned and forwarded with permanent priority-1 rules |
| BoxController.StepKeepsBans | myco_box_controller.py:56-60 | one frame never shrinks the blacklist and never changes a banned MAC's learning entries |
| BoxController.RunKeepsBans | myco_box_controller.py:56-60 | over any run the blacklist only grows, and a banned MAC's learning entries stay frozen |
| BoxController.MycoBoxController.constructor | myco_box_controller.py:14-24 | empty tables and blacklist, window opened at the start time |
| BoxController.MycoBoxController.SwitchFeatures | myco_box_controller.py:26-36 | sends the table-miss rule and changes no state |
| BoxController.MycoBoxController.BlockHost | myco_box_controller.py:54-71 | blacklist and rules sent are those of `Block`; nothing else changes |
| BoxController.MycoBoxController.PacketIn | myco_box_controller.py:73-136 | the new state and the messages are those of `Step` |
| MycoRyu.Plain | myco_ryu.py:144-157 | normal forwarding is one packet-out to the learned port or a flood, data attached only when unbuffered |
| MycoRyu.Step | myco_ryu.py:92 | LLDP frames change nothing and send nothing |
| MycoRyu.LearnsInEveryMode | myco_ryu.py:98-99 | the source is learned before the mode is looked at, in every mode |
| MycoRyu.BaselineOnlyForwards | myco_ryu.py:104-105 | BASELINE (and any unknown mode) touches neither counters nor load and sends one packet-out only |
| MycoRyu.ScoutEqualsBox | myco_ryu.py:108-123 | SCOUT and BOX take the same step on every frame |
| MycoRyu.RateLimitDrops | myco_ryu.py:108-123 | in SCOUT/BOX the frame over 30 gets exactly one priority-100 drop rule with hard 10 and no packet-out; below, it is forwarded |
| MycoRyu.SwapRedirectsLoadedServer | myco_ryu.py:126-142 | in SWAP a frame for h1 raises the load by one and is redirected iff the new load exceeds 50; counters are untouched |
| MycoRyu.SwapLoadCountsServerFrames | myco_ryu.py:126-129 | the SWAP load is never reset: after any run it has grown by exactly the number of frames for h1 |
| MycoRyu.OnceLoadedAlwaysRedirected | myco_ryu.py:126-142 | once the load has reached 50, every later frame for h1 is redirected, whatever came between |
| MycoRyu.MycoFinalController.constructor | myco_ryu.py:17-29 | empty tables, load 0, the configured mode |
| MycoRyu.MycoFinalController.SwitchFeatures | myco_ryu.py:51-58 | sends the table-miss rule and changes no state |
| MycoRyu.MycoFinalController.CheckRateLimit | myco_ryu.py:69-80 | counters and window are those of `Tick`; the result is count > 30 |
| MycoRyu.MycoFinalController.PacketIn | myco_ryu.py:82-157 | the new state and the messages are those of `Step` |
| ControllerV2.RateGuard | myco_controller_v2.py:94-101 | `MODE == X and check_rate_limit(...)`: counters change only when the mode matches, and the test holds iff the new count exceeds 30 |
| ControllerV2.Step | myco_controller_v2.py:78-120 | LLDP frames change nothing and send nothing; every other frame's source is learned first in every mode; the server load moves only under SWAP, by one for a frame for h1; a frame is either isolated by a single hard-10 drop rule on its source or sent with no drop rule |
| ControllerV2.CountedAtMostOnce | myco_controller_v2.py:94-101 | each frame is counted exactly once in SCOUT/BOX and not at all in other modes |
| ControllerV2.SameAsMycoRyu | myco_controller_v2.py:77-120 | the compact rewrite takes the same step as myco_ryu.py for every mode, state and frame |
| ControllerV2.MycoFinalController.constructor | myco_controller_v2.py:14-23 | empty tables, load 0, the configured mode |
| ControllerV2.MycoFinalController.SwitchFeatures | myco_controller_v2.py:48-55 | sends the table-miss rule and changes no state |
| ControllerV2.MycoFinalController.CheckRateLimit | myco_controller_v2.py:66-75 | counters and window are those of `Tick`; the result is count > 30 |
| ControllerV2.MycoFinalController.PacketIn | myco_controller_v2.py:77-120 | the new state and the messages are those of `Step` |
| Orchestrator.HostIndex | myco_controller_gpt.py:109 | its keys are exactly the listed IPs, and each maps to a listed host with that IP |
| Orchestrator.LastHostWins | myco_controller_gpt.py:109 | for a repeated IP the index keeps the last host listed |
| Orchestrator.ProxiesAt | myco_controller_gpt.py:111-113 | the proxies of one switch: exactly the listed proxies with that dpid |
| Orchestrator.ProxyIndex | myco_controller_gpt.py:111-113 | every listed proxy is filed under its own dpid, and each dpid key holds a non-empty list of listed proxies with that dpid |
| Orchestrator.ProxyIndexGroups | myco_controller_gpt.py:111-113 | a switch is in `proxies_by_dpid` iff a proxy is listed for it, and its entry lists them in listing order |
| Orchestrator.FirstListedHeadsGroup | myco_controller_gpt.py:111-113 | the first proxy listed for a switch heads that switch's group |
| Orchestrator.BuildHostIndex | myco_controller_gpt.py:109 | the loop builds exactly `HostIndex` |
| Orchestrator.BuildProxyIndex | myco_controller_gpt.py:111-113 | the setdefault/append loop builds exactly `ProxyIndex` |
| Orchestrator.ParseStrategy | myco_controller_gpt.py:79 | accepts exactly the three names, and the strategy's name is the text read |
| Orchestrator.ParseNameRoundTrip | myco_controller_gpt.py:79 | every strategy's name reads back as that strategy |
| Orchestrator.StripLeft | myco_controller_gpt.py:75-76 | the result is a suffix, everything removed is whitespace, and it does not start with whitespace |
| Orchestrator.StripRight | myco_controller_gpt.py:75-76 | the result is a prefix, everything removed is whitespace, and it does not end with whitespace |
| Orchestrator.StripLeftPrefix | myco_controller_gpt.py:75-76 | stripping removes a whitespace prefix and stops at the first other character |
| Orchestrator.StripRightSuffix | myco_controller_gpt.py:75-76 | stripping removes a whitespace suffix and stops at the last other character |
| Orchestrator.Strip | myco_controller_gpt.py:75-76 | the result neither starts nor ends with whitespace and is a slice of the text after its leading whitespace |
| Orchestrator.Lower | myco_controller_gpt.py:75 | the same length; no ASCII capital remains; every other character is kept and every capital becomes its lower-case letter |
| Orchestrator.StripPadding | myco_controller_gpt.py:75-76 | `strip()` of a text padded with whitespace is the text |
| Orchestrator.StripEmptyIffBlank | myco_controller_gpt.py:81-82 | a target_ip is refused as missing iff it is empty or all whitespace |
| Orchestrator.Validate | myco_controller_gpt.py:75-84 | accepted iff the stripped lower-cased strategy is one of the three names, the stripped target_ip is non-empty and 0 < duration (default 8) ≤ 120; the checks run in the source's order: a bad strategy is refused as such, then a missing target_ip, then a bad duration |
| Orchestrator.PaddedNameStrips | myco_controller_gpt.py:75 | a strategy name in any letter case keeps all its letters under `strip()` and loses only the surrounding whitespace |
| Orchestrator.PaddedNameAccepted | myco_controller_gpt.py:75-80 | a strategy name in any letter case and padded with whitespace is accepted as that strategy, with duration 8 when none is given |
| Orchestrator.Admit | myco_controller_gpt.py:297-331 | an unknown target is refused first, then any request while an event is active; box/swap need a proxy on the target's switch and take the first; an accepted event carries the target's MAC and switch, the duration and the cookie, and has a proxy iff it is not scout |
| Orchestrator.SingleFlight | myco_controller_gpt.py:301-304 | while an event is active every request is refused |
| Orchestrator.ChosenProxyListedFirst | myco_controller_gpt.py:310-319 | against the loaded mapping, box and swap use the first proxy listed for the target's switch |
| Orchestrator.CookieRule | myco_controller_gpt.py:479-486 | an add on the given switch carrying the event cookie, the given priority, match and actions, idle 0, hard 0 and OFP_NO_BUFFER, which the cookie delete on that switch removes |
| Orchestrator.ScoutRules | myco_controller_gpt.py:384-401 | two rules per registered switch |
| Orchestrator.ScoutRulesAt | myco_controller_gpt.py:384-401 | rules 2i and 2i+1 are the destination drop and the source drop on the i-th registered switch, in registration order |
| Orchestrator.ScoutRulesShape | myco_controller_gpt.py:384-401 | every scout rule is a priority-300 drop with the event cookie and no timeouts on a registered switch, matching IPv4 dst = target (even positions) or IPv4 src = target (odd positions) |
| Orchestrator.BoxRules | myco_controller_gpt.py:403-436 | nothing iff the target's switch is unregistered; otherwise rules only on that switch, with the cookie and no timeouts |
| Orchestrator.SwapRules | myco_controller_gpt.py:438-477 | nothing iff the target's switch is unregistered; otherwise rules only on that switch, with the cookie and no timeouts |
| Orchestrator.StartRules | myco_controller_gpt.py:364-371 | every start rule is an add on a registered switch with the event's cookie and no hard timeout; box and swap touch only the target's switch |
| Orchestrator.RedirectRulesShape | myco_controller_gpt.py:421-477 | box: one priority-320 rule rewriting IPv4 for the target to the proxy's IP and MAC out the proxy port; swap: the same at 340 plus a rule matching in_port = proxy port and IPv4 src = proxy that restores the target's IP and MAC and sends to the controller |
| Orchestrator.CleanupRules | myco_controller_gpt.py:373-380 | one cookie delete per registered switch, in order |
| Orchestrator.CleanupCoversStartRules | myco_controller_gpt.py:373-380 | every switch that received a start rule receives the cookie delete at cleanup |
| Orchestrator.BaselineCookieZero | myco_controller_gpt.py:149-163 | the table-miss rule and every learned L2 rule carry cookie 0 |
| Orchestrator.CleanupSparesOtherRules | myco_controller_gpt.py:373-380 | a cleanup delete removes only rules with the event's cookie, so for a non-zero cookie neither the table-miss rule nor any learned L2 rule is removed |
| Orchestrator.End | myco_controller_gpt.py:339-346 | no active event: nothing sent; otherwise the cookie cleanup; the slot is cleared either way |
| Orchestrator.EndIdempotent | myco_controller_gpt.py:339-346 | ending twice changes nothing the second time and sends nothing |
| Orchestrator.ArpSteering | myco_controller_gpt.py:224-259 | a reply is sent iff an ARP request asks for the active target's IP while the proxy MAC is non-empty; it says the target's IP is at the proxy MAC, is addressed to the requester, and leaves by the ingress port |
| Orchestrator.ScoutAndIdleNeverSteer | myco_controller_gpt.py:232-242 | with no active event, or a scout event (no proxy), ARP is never answered |
| Orchestrator.ArpSteeringAsWritten | myco_controller_gpt.py:244-259 | as written, the handler raises NameError exactly on the requests it should answer, and never replies |
| Orchestrator.ArpSteeringNeverAnswers | myco_controller_gpt.py:247 | every request the steering is for goes unanswered as written, while the intended handler sends one reply |
| Orchestrator.ArpSteeringCounterexample | myco_controller_gpt.py:247 | a concrete box event and ARP request on which the as-written handler raises and the intended one replies with the proxy MAC |
| Orchestrator.Learning | myco_controller_gpt.py:198-220 | toward a learned port a priority-10, idle-30 rule and then always a packet-out; toward an unknown destination only a flood packet-out |
| Orchestrator.MycoBarrierController.constructor | myco_controller_gpt.py:98-121 | the host and proxy indexes are built from the mapping, everything else is empty, xid starts at 1 |
| Orchestrator.MycoBarrierController.SwitchFeatures | myco_controller_gpt.py:140-154 | registers the switch once and sends the table-miss rule |
| Orchestrator.MycoBarrierController.PacketIn | myco_controller_gpt.py:178-220 | a frame without Ethernet is ignored; ARP frames are never learned and get `ArpSteering`; other frames learn src → in_port and get `Learning` |
| Orchestrator.MycoBarrierController.HandleArp | myco_controller_gpt.py:224-259 | appends exactly `ArpSteering` and changes no state |
| Orchestrator.MycoBarrierController.SendEcho | myco_controller_gpt.py:272-278 | the probe uses a fresh xid, so no pending probe is overwritten; the send time is recorded and xid advances by one |
| Orchestrator.MycoBarrierController.EchoReply | myco_controller_gpt.py:280-291 | a pending probe is removed and its round-trip in ms returned; an unknown or unparsable reply changes nothing |
| Orchestrator.MycoBarrierController.PostEvent | myco_controller_gpt.py:68-91 | a request failing validation is refused with its reason before `trigger_event` runs; otherwise the result of `Admit`, with the start rules sent on acceptance |
| Orchestrator.MycoBarrierController.TriggerEvent | myco_controller_gpt.py:297-337 | the verdict is `Admit`'s; on acceptance the slot holds the event and the start rules are sent; a refusal leaves the slot unchanged |
| Orchestrator.MycoBarrierController.ApplyStrategyStart | myco_controller_gpt.py:364-371 | appends exactly `StartRules` |
| Orchestrator.MycoBarrierController.ScoutIsolate | myco_controller_gpt.py:384-401 | the loop appends exactly `ScoutRules` over the registered switches |
| Orchestrator.MycoBarrierController.AutoEndEvent | myco_controller_gpt.py:339-346 | slot and messages are those of `End` |
| Orchestrator.MycoBarrierController.CleanupEvent | myco_controller_gpt.py:373-380 | the loop appends exactly `CleanupRules` over the registered switches |

## Left out

- Resource-monitor threads (psutil CPU/RAM sampling, `hub.sleep`, CSV and log output): they observe the process and decide nothing.
- The echo timer loop of myco_controller_gpt.py (lines 263-270), `hub.spawn` and the event semaphore: the model is sequential. The sleep of `_auto_end_event` is the moment `AutoEndEvent` is called.
- CSV event and latency logs, and log messages: output only.
- `load_mapping` (file read with an empty fallback): the mapping is the constructor's input. Host entries without an "ip" key are not modelled.
- WSGI and webob plumbing: a request is the `Request` value. Non-JSON bodies, non-numeric `duration_s` (an exception in `float()`) and response texts are not modelled.
- Orchestrator.Validate: does not model a NaN `duration_s`, which Python's comparisons let through. Durations are real numbers here.
- Orchestrator.Lower: lower-cases ASCII letters only. `str.lower()` on other scripts cannot change whether the text equals one of the three ASCII names.
- Orchestrator.MycoBarrierController.EchoReply: the round-trip time is exact real arithmetic, not floating point.
- Ryu packet parsing and serialisation: a frame is a record of ingress port, buffer id, ethertype, MACs and optional ARP header. A packet-out's bytes are named (`FrameData`, `ArpData`), not encoded.
- Exceptions from `send_msg` on a disconnected switch (swallowed in `_cleanup_event`): every send succeeds in the model.
- Per-message OpenFlow fields the controllers never set (out_port/out_group of deletes, flags, table ids).
- The simulated BOX overhead `[x**2 for x in range(5000)]` (myco_ryu.py:119, myco_controller_v2.py:99): it has no observable effect.
- The `quarantine_list` field of myco_ryu.py, and the IP constants of myco_final_controller.py and resource_monitor.py: declared but never used.
- Wall-clock time: each handler call receives one `now`. The source reads `time.time()` several times per packet, microseconds apart.

## Findings

| source | as written | input that shows it | evidently intended | confidence | as-written member | corrected member |
|---|---|---|---|---|---|---|
| myco_controller_gpt.py:247 | `_handle_arp` builds the reply's Ethernet header with `ether.ETH_TYPE_ARP`. `ether` is never imported (only `packet, ethernet, arp, ipv4` are), so the handler raises NameError and no reply is sent. | An active myco_box event for 10.0.0.7 with proxy MAC 00:00:00:00:00:64, and an ARP request "who has 10.0.0.7" | Reply "10.0.0.7 is at 00:00:00:00:00:64" to the requester through its ingress port (ethertype 0x0806) | high; not executed | Orchestrator.ArpSteeringAsWritten (with Orchestrator.ArpSteeringCounterexample) | Orchestrator.ArpSteering (used by Orchestrator.MycoBarrierController.HandleArp) |
