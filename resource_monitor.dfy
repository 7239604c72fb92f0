/** resource_monitor.py (class MycoUniversalController): the one-step security check
    and rate detection of the final controller, plus a configured strategy that
    decides how frames for the main server h1 are retargeted to the proxy h2:
    SWAP retargets every such frame once a detection has switched the proxy on;
    SCOUT and BOX retarget them once more than 20 have been seen in the window. */
module ResourceMonitor {
  import opened OpenFlow
  import opened RateWindow
  import opened Quarantine

  const DETECTION_THRESHOLD: nat := 30
  const STRESS_THRESHOLD: nat := 20
  const FORWARD_IDLE: nat := 2

  /** The STRATEGY setting (the source ships with 'SWAP'). */
  datatype Strategy = Scout | Box | Swap

  datatype MonitorState = MonitorState(
    macToPort: map<Key, PortNo>,
    packetCounts: map<Key, nat>,
    quarantine: Table,
    serverLoad: nat,
    activeProxy: bool,
    startTime: real)

  datatype Outcome = Outcome(next: MonitorState, sent: seq<Message>)

  /** The destination a frame is finally delivered to, and the new server load. */
  datatype Target = Target(dst: Mac, load: nat)

  /** Lines 186-205: choose the final destination MAC. */
  function Retarget(strategy: Strategy, active: bool, load: nat, dst: Mac): (t: Target)
    // only frames for h1 are ever retargeted, and only to the proxy h2
    ensures t.dst == dst || (dst == SERVER_MAC && t.dst == PROXY_MAC)
    // SWAP: every frame for h1 while the proxy replacement is on; the load is untouched
    ensures strategy == Swap ==> t.load == load && (t.dst != dst <==> active && dst == SERVER_MAC)
    // SCOUT/BOX: every frame for h1 raises the load, and is retargeted once it exceeds 20
    ensures strategy != Swap ==>
              && t.load == (if dst == SERVER_MAC then load + 1 else load)
              && (t.dst != dst <==> dst == SERVER_MAC && t.load > STRESS_THRESHOLD)
  {
    match strategy
    case Swap =>
      if active && dst == SERVER_MAC then Target(PROXY_MAC, load) else Target(dst, load)
    case Scout | Box =>
      if dst == SERVER_MAC then Target(if load + 1 > STRESS_THRESHOLD then PROXY_MAC else dst, load + 1)
      else Target(dst, load)
  }

  /** Lines 211-237: deliver toward the final destination once the source is learned.
      A known final destination gets a priority-1, idle-2 rule matching the ORIGINAL
      destination, whose actions rewrite eth_dst first exactly when the frame was
      retargeted; an unknown one is flooded unmodified. */
  function Deliver(dpid: Dpid, f: Frame, ports: map<Key, PortNo>, finalDst: Mac): (sent: seq<Message>)
    // never a drop rule; every rule is a priority-1, idle-2 rule on this switch matching
    // the ingress port, the source and the ORIGINAL destination
    ensures forall m | m in sent :: !IsDropRule(m) && m.dpid == dpid
    ensures forall m | m in sent && m.FlowAdd? ::
              && m.priority == 1 && m.idleTimeout == FORWARD_IDLE && m.hardTimeout == 0 && m.cookie == 0
              && m.flowMatch == MatchL2(f.inPort, f.src, f.dst)
    // a known final destination: one rule (releasing a buffered frame) and, only for an
    // unbuffered frame, a packet-out with the same actions; the actions end with the
    // learned port and start with a rewrite to finalDst exactly when it was retargeted
    ensures (dpid, finalDst) in ports ==>
              && |sent| == (if Buffered(f) then 1 else 2)
              && sent[0].FlowAdd? && sent[0].bufferId == FlowBuffer(if Buffered(f) then Some(f.bufferId) else None)
              && (!Buffered(f) ==> sent[1] == FrameOut(dpid, f, sent[0].actions))
              && var actions := sent[0].actions;
                 && |actions| == (if finalDst != f.dst then 2 else 1)
                 && actions[|actions| - 1] == Out(ports[(dpid, finalDst)])
                 && (actions[0] == SetEthDst(finalDst) <==> finalDst != f.dst)
    // an unknown final destination: one flood packet-out with no rewrite, and no rule
    ensures (dpid, finalDst) !in ports ==>
              && |sent| == 1 && sent[0].PacketOut? && sent[0].actions == [Out(OFPP_FLOOD)]
              && sent[0].bufferId == f.bufferId && sent[0].inPort == f.inPort
              && sent[0].data == (if Buffered(f) then NoData else FrameData)
  {
    if (dpid, finalDst) in ports then
      var actions := if finalDst != f.dst then [SetEthDst(finalDst), Out(ports[(dpid, finalDst)])] else [Out(ports[(dpid, finalDst)])];
      var rule := FlowAdd(dpid, 0, 1, MatchL2(f.inPort, f.src, f.dst), actions, FORWARD_IDLE, 0,
                          FlowBuffer(if Buffered(f) then Some(f.bufferId) else None));
      if Buffered(f) then [rule] else [rule, FrameOut(dpid, f, actions)]
    else
      [FrameOut(dpid, f, [Out(OFPP_FLOOD)])]
  }

  /** Steps 3 and 4 of `_packet_in_handler`: retarget, learn, deliver. */
  function Forwarding(strategy: Strategy, s: MonitorState, dpid: Dpid, f: Frame): (o: Outcome)
    // the source is learned on its ingress port
    ensures o.next.macToPort.Keys == s.macToPort.Keys + {(dpid, f.src)}
    ensures o.next.macToPort[(dpid, f.src)] == f.inPort
    // the load only grows, and only in SCOUT/BOX for a frame for h1
    ensures o.next.serverLoad == s.serverLoad + (if strategy != Swap && f.dst == SERVER_MAC then 1 else 0)
    ensures o.next.(macToPort := s.macToPort, serverLoad := s.serverLoad) == s
    ensures forall m | m in o.sent :: !IsDropRule(m)
  {
    var t := Retarget(strategy, s.activeProxy, s.serverLoad, f.dst);
    var ports := s.macToPort[(dpid, f.src) := f.inPort];
    Outcome(s.(serverLoad := t.load, macToPort := ports), Deliver(dpid, f, ports, t.dst))
  }

  /** `_packet_in_handler` for one frame under `strategy`. */
  function Step(strategy: Strategy, s: MonitorState, dpid: Dpid, f: Frame, now: real, passed: bool): (o: Outcome)
    ensures f.ethType == ETH_TYPE_LLDP ==> o == Outcome(s, [])
  {
    if f.ethType == ETH_TYPE_LLDP then Outcome(s, [])
    else
      var c := SecurityCheck(s.quarantine, f.src, now, passed);
      // a reintegration switches the proxy replacement off in SWAP mode
      var active := if c.status == Reintegrate && strategy == Swap then false else s.activeProxy;
      var s1 := s.(quarantine := c.table, activeProxy := active);
      if c.status == Drop then Outcome(s1, [])
      else
        var t := Tick(s.packetCounts, s.startTime, now, (dpid, f.src));
        var load := if Expired(s.startTime, now) then 0 else s.serverLoad;
        var s2 := s1.(packetCounts := t.counts, startTime := t.start, serverLoad := load);
        if t.count > DETECTION_THRESHOLD then
          Outcome(s2.(quarantine := s2.quarantine[f.src := now + RECOVERY_TIME as real],
                      activeProxy := strategy == Swap || active),
                  [DropSource(dpid, f.src, RECOVERY_TIME)])
        else
          Forwarding(strategy, s2, dpid, f)
  }

  /** In SWAP mode a reintegration switches the proxy replacement off; unless the same
      frame is itself over the detection threshold, it stays off after the frame. */
  lemma ReintegrationEndsSwap(s: MonitorState, dpid: Dpid, f: Frame, now: real, passed: bool)
    requires f.ethType != ETH_TYPE_LLDP
    requires SecurityCheck(s.quarantine, f.src, now, passed).status == Reintegrate
    requires Tick(s.packetCounts, s.startTime, now, (dpid, f.src)).count <= DETECTION_THRESHOLD
    ensures !Step(Swap, s, dpid, f, now, passed).next.activeProxy
  {
  }

  /** A frame over the detection threshold quarantines its source until
      now + RECOVERY_TIME with a drop rule of that hard timeout, is discarded, and in
      SWAP mode switches the proxy replacement on (switching it on again changes
      nothing); in SCOUT/BOX mode the flag is left as it was. */
  lemma DetectionQuarantines(strategy: Strategy, s: MonitorState, dpid: Dpid, f: Frame, now: real, passed: bool)
    requires f.ethType != ETH_TYPE_LLDP
    requires SecurityCheck(s.quarantine, f.src, now, passed).status != Drop
    requires Tick(s.packetCounts, s.startTime, now, (dpid, f.src)).count > DETECTION_THRESHOLD
    ensures var c := SecurityCheck(s.quarantine, f.src, now, passed);
            var o := Step(strategy, s, dpid, f, now, passed);
            && f.src !in c.table
            && o.next.quarantine == c.table[f.src := now + RECOVERY_TIME as real]
            && o.sent == [DropSource(dpid, f.src, RECOVERY_TIME)]
            && o.next.macToPort == s.macToPort
            && (strategy == Swap ==> o.next.activeProxy)
            && (strategy != Swap ==> o.next.activeProxy == s.activeProxy)
  {
  }

  /** A window reset clears both the counts and the server load. */
  lemma WindowResetClearsLoad(strategy: Strategy, s: MonitorState, dpid: Dpid, f: Frame, now: real, passed: bool)
    requires f.ethType != ETH_TYPE_LLDP
    requires SecurityCheck(s.quarantine, f.src, now, passed).status != Drop
    requires Expired(s.startTime, now)
    ensures var o := Step(strategy, s, dpid, f, now, passed);
            && o.next.packetCounts == map[(dpid, f.src) := 1]
            && o.next.startTime == now && o.next.serverLoad <= 1
  {
  }

  /** While the SWAP replacement is on, a forwarded frame for h1 is delivered to the
      proxy h2 (rewritten when h2's port is known), and a frame for any other MAC is
      delivered unchanged. */
  lemma SwapRetargetsOnlyServer(s: MonitorState, dpid: Dpid, f: Frame)
    requires s.activeProxy
    ensures var o := Forwarding(Swap, s, dpid, f);
            var ports := s.macToPort[(dpid, f.src) := f.inPort];
            var finalDst := if f.dst == SERVER_MAC then PROXY_MAC else f.dst;
            && o.sent == Deliver(dpid, f, ports, finalDst)
            && o.next.serverLoad == s.serverLoad
    // a frame for h1, with h2's port known, leaves rewritten to h2 through h2's port
    ensures var ports := s.macToPort[(dpid, f.src) := f.inPort];
            f.dst == SERVER_MAC && (dpid, PROXY_MAC) in ports ==>
              Forwarding(Swap, s, dpid, f).sent[0].actions == [SetEthDst(PROXY_MAC), Out(ports[(dpid, PROXY_MAC)])]
    // a frame for any other MAC is never rewritten
    ensures f.dst != SERVER_MAC ==>
              forall m | m in Forwarding(Swap, s, dpid, f).sent :: forall a | a in m.actions :: !a.SetEthDst?
  {
  }

  /** The Ryu application object of resource_monitor.py. */
  class MycoUniversalController {
    const strategy: Strategy
    var macToPort: map<Key, PortNo>
    var packetCounts: map<Key, nat>
    var quarantineList: Table
    var serverLoadCounter: nat
    var activeProxyReplacement: bool
    var startTime: real
    var outbox: seq<Message>

    function Snapshot(): MonitorState
      reads this
    {
      MonitorState(macToPort, packetCounts, quarantineList, serverLoadCounter, activeProxyReplacement, startTime)
    }

    constructor (strategy: Strategy, now: real)
      ensures this.strategy == strategy
      ensures Snapshot() == MonitorState(map[], map[], map[], 0, false, now) && outbox == []
    {
      this.strategy := strategy;
      macToPort, packetCounts, quarantineList := map[], map[], map[];
      serverLoadCounter, activeProxyReplacement, startTime := 0, false, now;
      outbox := [];
    }

    method SwitchFeatures(dpid: Dpid)
      modifies this
      ensures Snapshot() == old(Snapshot()) && outbox == old(outbox) + [TableMiss(dpid)]
    {
      outbox := outbox + [TableMiss(dpid)];
    }

    method CheckSecurityStatus(srcMac: Mac, now: real, passed: bool) returns (status: Status)
      modifies this
      ensures var c := SecurityCheck(old(quarantineList), srcMac, now, passed);
              && status == c.status && quarantineList == c.table
              && activeProxyReplacement == if c.status == Reintegrate && strategy == Swap then false
                                           else old(activeProxyReplacement)
      ensures macToPort == old(macToPort) && packetCounts == old(packetCounts)
      ensures serverLoadCounter == old(serverLoadCounter) && startTime == old(startTime)
      ensures outbox == old(outbox)
    {
      if srcMac in quarantineList {
        var releaseTime := quarantineList[srcMac];
        if now < releaseTime {
          return Drop;
        }
        if !passed {
          quarantineList := quarantineList[srcMac := quarantineList[srcMac] + PENALTY];
          return Drop;
        } else {
          quarantineList := quarantineList - {srcMac};
          if strategy == Swap {
            activeProxyReplacement := false;
          }
          return Reintegrate;
        }
      }
      return Allow;
    }

    method PacketIn(dpid: Dpid, f: Frame, now: real, passed: bool)
      modifies this
      ensures var o := Step(strategy, old(Snapshot()), dpid, f, now, passed);
              Snapshot() == o.next && outbox == old(outbox) + o.sent
    {
      if f.ethType == ETH_TYPE_LLDP {
        return;
      }
      // 1. security check (barrier)
      ghost var s0 := Snapshot();
      var status := CheckSecurityStatus(f.src, now, passed);
      ghost var c := SecurityCheck(s0.quarantine, f.src, now, passed);
      assert status == c.status;
      if status == Drop {
        return;
      }
      // 2. rate limiting and detection
      var count := CountFrame((dpid, f.src), now);
      if count > DETECTION_THRESHOLD {
        QuarantineSource(dpid, f.src, now);
        return;
      }
      ForwardFrame(dpid, f);
    }

    /** Lines 153-161: restart the one-second window when it has run out (clearing
        the server load with the counts) and count the frame. */
    method CountFrame(key: Key, now: real) returns (count: nat)
      modifies this
      ensures var t := Tick(old(packetCounts), old(startTime), now, key);
              && count == t.count && packetCounts == t.counts && startTime == t.start
      ensures serverLoadCounter == if Expired(old(startTime), now) then 0 else old(serverLoadCounter)
      ensures macToPort == old(macToPort) && quarantineList == old(quarantineList)
      ensures activeProxyReplacement == old(activeProxyReplacement) && outbox == old(outbox)
    {
      if now - startTime > 1.0 {
        packetCounts := map[];
        serverLoadCounter := 0;
        startTime := now;
      }
      packetCounts := packetCounts[key := CountOf(packetCounts, key) + 1];
      count := packetCounts[key];
    }

    /** Lines 169-179: quarantine a source over the detection threshold, install its
        drop rule and, in SWAP mode, switch the proxy replacement on. */
    method QuarantineSource(dpid: Dpid, src: Mac, now: real)
      modifies this
      ensures quarantineList == old(quarantineList)[src := now + RECOVERY_TIME as real]
      ensures activeProxyReplacement == (strategy == Swap || old(activeProxyReplacement))
      ensures macToPort == old(macToPort) && packetCounts == old(packetCounts)
      ensures serverLoadCounter == old(serverLoadCounter) && startTime == old(startTime)
      ensures outbox == old(outbox) + [DropSource(dpid, src, RECOVERY_TIME)]
    {
      quarantineList := quarantineList[src := now + RECOVERY_TIME as real];
      outbox := outbox + [FlowAdd(dpid, 0, 100, MatchEthSrc(src), [], 0, RECOVERY_TIME, FlowBuffer(None))];
      if strategy == Swap {
        if !activeProxyReplacement {
          activeProxyReplacement := true;
        }
      }
    }

    /** Steps 3 and 4, lines 183-237: retarget and learn. */
    method ForwardFrame(dpid: Dpid, f: Frame)
      modifies this
      ensures var o := Forwarding(strategy, old(Snapshot()), dpid, f);
              Snapshot() == o.next && outbox == old(outbox) + o.sent
    {
      var finalDstMac := f.dst;
      if strategy == Swap && activeProxyReplacement {
        if f.dst == SERVER_MAC {
          finalDstMac := PROXY_MAC;
        }
      } else if strategy == Scout || strategy == Box {
        if f.dst == SERVER_MAC {
          serverLoadCounter := serverLoadCounter + 1;
          if serverLoadCounter > STRESS_THRESHOLD {
            finalDstMac := PROXY_MAC;
          }
        }
      }
      ghost var t := Retarget(strategy, old(activeProxyReplacement), old(serverLoadCounter), f.dst);
      assert finalDstMac == t.dst && serverLoadCounter == t.load;
      macToPort := macToPort[(dpid, f.src) := f.inPort];
      SendToward(dpid, f, finalDstMac);
    }

    /** Lines 211-237: install the rule and release the frame toward `finalDstMac`. */
    method SendToward(dpid: Dpid, f: Frame, finalDstMac: Mac)
      modifies this
      ensures Snapshot() == old(Snapshot())
      ensures outbox == old(outbox) + Deliver(dpid, f, macToPort, finalDstMac)
    {
      var actions: seq<Action>;
      if (dpid, finalDstMac) in macToPort {
        var outPort := macToPort[(dpid, finalDstMac)];
        actions := [Out(outPort)];
        if finalDstMac != f.dst {
          actions := [SetEthDst(finalDstMac)] + actions;
          assert actions == [SetEthDst(finalDstMac), Out(outPort)];
        }
        var m := MatchL2(f.inPort, f.src, f.dst);
        if f.bufferId != OFP_NO_BUFFER {
          outbox := outbox + [FlowAdd(dpid, 0, 1, m, actions, FORWARD_IDLE, 0, FlowBuffer(Some(f.bufferId)))];
          return;
        } else {
          outbox := outbox + [FlowAdd(dpid, 0, 1, m, actions, FORWARD_IDLE, 0, FlowBuffer(None))];
        }
      } else {
        actions := [Out(OFPP_FLOOD)];
      }
      var data := if f.bufferId == OFP_NO_BUFFER then FrameData else NoData;
      outbox := outbox + [PacketOut(dpid, f.bufferId, f.inPort, actions, data)];
    }
  }
}
