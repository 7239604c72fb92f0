/** myco_final_controller.py: the one-step security check (ALLOW / DROP /
    REINTEGRATE), rate detection with quarantine, and load offload of frames for
    the main server h1 to the standby proxy h2 once more than 50 of them have been
    forwarded inside one window. */
module FinalController {
  import opened OpenFlow
  import opened RateWindow
  import opened Quarantine

  const DETECTION_THRESHOLD: nat := 30
  const LOAD_THRESHOLD: nat := 50
  const FORWARD_IDLE: nat := 5

  datatype FinalState = FinalState(
    macToPort: map<Key, PortNo>,
    packetCounts: map<Key, nat>,
    quarantine: Table,
    serverLoad: nat,
    startTime: real)

  datatype Outcome = Outcome(next: FinalState, sent: seq<Message>)

  /** The learning and forwarding part of `_packet_in_handler` (from line 157 on),
      including the load-offload redirect of frames for a known h1. */
  function Forwarding(s: FinalState, dpid: Dpid, f: Frame): (o: Outcome)
    // the source is learned on its ingress port
    ensures o.next.macToPort.Keys == s.macToPort.Keys + {(dpid, f.src)}
    ensures o.next.macToPort[(dpid, f.src)] == f.inPort
    // every frame for a known h1 (and only such a frame) raises the server load
    ensures o.next.serverLoad == s.serverLoad + (if (dpid, f.dst) in o.next.macToPort && f.dst == SERVER_MAC then 1 else 0)
    ensures o.next.(macToPort := s.macToPort, serverLoad := s.serverLoad) == s
    ensures forall m | m in o.sent :: !IsDropRule(m)
  {
    var ports := s.macToPort[(dpid, f.src) := f.inPort];
    var s' := s.(macToPort := ports);
    if (dpid, f.dst) in ports && f.dst == SERVER_MAC then
      if s.serverLoad + 1 > LOAD_THRESHOLD then Outcome(s'.(serverLoad := s.serverLoad + 1), Offload(dpid, f))
      else Outcome(s'.(serverLoad := s.serverLoad + 1), L2Forward(dpid, f, ports, FORWARD_IDLE))
    else
      Outcome(s', L2Forward(dpid, f, ports, FORWARD_IDLE))
  }

  /** `_packet_in_handler` for one frame; `passed` is the verification trial's outcome. */
  function Step(s: FinalState, dpid: Dpid, f: Frame, now: real, passed: bool): (o: Outcome)
    ensures f.ethType == ETH_TYPE_LLDP ==> o == Outcome(s, [])
  {
    if f.ethType == ETH_TYPE_LLDP then Outcome(s, [])
    else
      var c := SecurityCheck(s.quarantine, f.src, now, passed);
      var s1 := s.(quarantine := c.table);
      if c.status == Drop then Outcome(s1, [])
      else
        // rate limiting: the window reset also clears the server load
        var t := Tick(s.packetCounts, s.startTime, now, (dpid, f.src));
        var load := if Expired(s.startTime, now) then 0 else s.serverLoad;
        var s2 := s1.(packetCounts := t.counts, startTime := t.start, serverLoad := load);
        if t.count > DETECTION_THRESHOLD then
          Outcome(s2.(quarantine := s2.quarantine[f.src := now + RECOVERY_TIME as real]),
                  [DropSource(dpid, f.src, RECOVERY_TIME)])
        else
          Forwarding(s2, dpid, f)
  }

  /** A DROP verdict ends the frame: it is not counted, learned or forwarded, and only
      the quarantine table may change (a failed trial's extension). */
  lemma DropIgnoresFrame(s: FinalState, dpid: Dpid, f: Frame, now: real, passed: bool)
    requires f.ethType != ETH_TYPE_LLDP
    requires SecurityCheck(s.quarantine, f.src, now, passed).status == Drop
    ensures Step(s, dpid, f, now, passed) == Outcome(s.(quarantine := SecurityCheck(s.quarantine, f.src, now, passed).table), [])
  {
  }

  /** REINTEGRATE continues exactly like ALLOW: the frame is handled as if its source
      had never been quarantined. */
  lemma ReintegrateActsLikeAllow(s: FinalState, dpid: Dpid, f: Frame, now: real, passed: bool)
    requires f.ethType != ETH_TYPE_LLDP
    requires SecurityCheck(s.quarantine, f.src, now, passed).status == Reintegrate
    ensures Step(s, dpid, f, now, passed) == Step(s.(quarantine := s.quarantine - {f.src}), dpid, f, now, passed)
  {
    var s' := s.(quarantine := s.quarantine - {f.src});
    assert SecurityCheck(s'.quarantine, f.src, now, passed) == Check(Allow, s.quarantine - {f.src});
  }

  /** A window reset clears both the per-(switch, source) counts and the server load:
      afterwards only this frame's key is counted, once, and the load is at most one. */
  lemma WindowResetClearsLoad(s: FinalState, dpid: Dpid, f: Frame, now: real, passed: bool)
    requires f.ethType != ETH_TYPE_LLDP
    requires SecurityCheck(s.quarantine, f.src, now, passed).status != Drop
    requires Expired(s.startTime, now)
    ensures var o := Step(s, dpid, f, now, passed);
            && o.next.packetCounts == map[(dpid, f.src) := 1]
            && o.next.startTime == now && o.next.serverLoad <= 1
  {
  }

  /** The frame over the detection threshold quarantines its source until
      now + RECOVERY_TIME, pushes one drop rule with that hard timeout, and is
      discarded. The source had no record before (the security check has just let
      it through), so no record is ever overwritten. */
  lemma DetectionQuarantines(s: FinalState, dpid: Dpid, f: Frame, now: real, passed: bool)
    requires f.ethType != ETH_TYPE_LLDP
    requires SecurityCheck(s.quarantine, f.src, now, passed).status != Drop
    requires Tick(s.packetCounts, s.startTime, now, (dpid, f.src)).count > DETECTION_THRESHOLD
    ensures var c := SecurityCheck(s.quarantine, f.src, now, passed);
            var o := Step(s, dpid, f, now, passed);
            && f.src !in c.table
            && o.next.quarantine == c.table[f.src := now + RECOVERY_TIME as real]
            && o.sent == [DropSource(dpid, f.src, RECOVERY_TIME)]
            && o.next.macToPort == s.macToPort
  {
  }

  /** Load offload: a frame is redirected to the proxy exactly when its destination
      is known, is h1, and the post-increment server load exceeds LOAD_THRESHOLD;
      only frames to a known h1 raise the load. */
  lemma OffloadExactlyForLoadedServer(s: FinalState, dpid: Dpid, f: Frame, now: real, passed: bool)
    requires f.ethType != ETH_TYPE_LLDP
    requires SecurityCheck(s.quarantine, f.src, now, passed).status != Drop
    requires Tick(s.packetCounts, s.startTime, now, (dpid, f.src)).count <= DETECTION_THRESHOLD
    ensures var o := Step(s, dpid, f, now, passed);
            var ports := s.macToPort[(dpid, f.src) := f.inPort];
            var load := if Expired(s.startTime, now) then 0 else s.serverLoad;
            var toServer := (dpid, f.dst) in ports && f.dst == SERVER_MAC;
            && o.next.macToPort == ports
            && o.next.serverLoad == (if toServer then load + 1 else load)
            && (o.sent == Offload(dpid, f) <==> toServer && load + 1 > LOAD_THRESHOLD)
            && (!(toServer && load + 1 > LOAD_THRESHOLD) ==> o.sent == L2Forward(dpid, f, ports, FORWARD_IDLE))
  {
    var ports := s.macToPort[(dpid, f.src) := f.inPort];
    var o := Step(s, dpid, f, now, passed);
    if !((dpid, f.dst) in ports && f.dst == SERVER_MAC && (if Expired(s.startTime, now) then 0 else s.serverLoad) + 1 > LOAD_THRESHOLD) {
      assert o.sent == L2Forward(dpid, f, ports, FORWARD_IDLE);
      assert !IsDropRule(o.sent[0]) && o.sent[0] != Offload(dpid, f)[0] by {
        if o.sent[0].FlowAdd? { assert o.sent[0].priority == 1; }
      }
    }
  }

  /** The Ryu application object of myco_final_controller.py. */
  class MycoFinalController {
    var macToPort: map<Key, PortNo>
    var packetCounts: map<Key, nat>
    var quarantineList: Table
    var serverLoadCounter: nat
    var startTime: real
    var outbox: seq<Message>

    function Snapshot(): FinalState
      reads this
    {
      FinalState(macToPort, packetCounts, quarantineList, serverLoadCounter, startTime)
    }

    constructor (now: real)
      ensures Snapshot() == FinalState(map[], map[], map[], 0, now) && outbox == []
    {
      macToPort, packetCounts, quarantineList := map[], map[], map[];
      serverLoadCounter, startTime := 0, now;
      outbox := [];
    }

    method SwitchFeatures(dpid: Dpid)
      modifies this
      ensures Snapshot() == old(Snapshot()) && outbox == old(outbox) + [TableMiss(dpid)]
    {
      outbox := outbox + [TableMiss(dpid)];
    }

    method CheckSecurityStatus(srcMac: Mac, now: real, passed: bool) returns (status: Status)
      modifies this
      ensures var c := SecurityCheck(old(quarantineList), srcMac, now, passed);
              status == c.status && quarantineList == c.table
      ensures macToPort == old(macToPort) && packetCounts == old(packetCounts)
      ensures serverLoadCounter == old(serverLoadCounter) && startTime == old(startTime)
      ensures outbox == old(outbox)
    {
      if srcMac in quarantineList {
        var releaseTime := quarantineList[srcMac];
        if now < releaseTime {
          return Drop;
        }
        if !passed {
          quarantineList := quarantineList[srcMac := quarantineList[srcMac] + PENALTY];
          return Drop;
        } else {
          quarantineList := quarantineList - {srcMac};
          return Reintegrate;
        }
      }
      return Allow;
    }

    method PacketIn(dpid: Dpid, f: Frame, now: real, passed: bool)
      modifies this
      ensures var o := Step(old(Snapshot()), dpid, f, now, passed);
              Snapshot() == o.next && outbox == old(outbox) + o.sent
    {
      if f.ethType == ETH_TYPE_LLDP {
        return;
      }
      // 1. security check
      var status := CheckSecurityStatus(f.src, now, passed);
      if status == Drop {
        return;
      }
      // 2. rate limiting
      var count := CountFrame((dpid, f.src), now);
      if count > DETECTION_THRESHOLD {
        quarantineList := quarantineList[f.src := now + RECOVERY_TIME as real];
        outbox := outbox + [FlowAdd(dpid, 0, 100, MatchEthSrc(f.src), [], 0, RECOVERY_TIME, FlowBuffer(None))];
        return;
      }
      ForwardFrame(dpid, f);
    }

    /** Lines 131-140: restart the one-second window when it has run out (clearing
        the server load with the counts) and count the frame. */
    method CountFrame(key: Key, now: real) returns (count: nat)
      modifies this
      ensures var t := Tick(old(packetCounts), old(startTime), now, key);
              && count == t.count && packetCounts == t.counts && startTime == t.start
      ensures serverLoadCounter == if Expired(old(startTime), now) then 0 else old(serverLoadCounter)
      ensures macToPort == old(macToPort) && quarantineList == old(quarantineList) && outbox == old(outbox)
    {
      if now - startTime > 1.0 {
        packetCounts := map[];
        serverLoadCounter := 0;
        startTime := now;
      }
      packetCounts := packetCounts[key := CountOf(packetCounts, key) + 1];
      count := packetCounts[key];
    }

    /** Lines 157-210: learning, load offload, forwarding. */
    method ForwardFrame(dpid: Dpid, f: Frame)
      modifies this
      ensures var o := Forwarding(old(Snapshot()), dpid, f);
              Snapshot() == o.next && outbox == old(outbox) + o.sent
    {
      macToPort := macToPort[(dpid, f.src) := f.inPort];
      var outPort: PortNo;
      if (dpid, f.dst) in macToPort {
        outPort := macToPort[(dpid, f.dst)];
        if f.dst == SERVER_MAC {
          serverLoadCounter := serverLoadCounter + 1;
          if serverLoadCounter > LOAD_THRESHOLD {
            var redirect := [SetEthDst(PROXY_MAC), Out(OFPP_NORMAL)];
            outbox := outbox + [FlowAdd(dpid, 0, 50, MatchInDst(f.inPort, f.dst), redirect, 1, 1, FlowBuffer(None))];
            outbox := outbox + [PacketOut(dpid, f.bufferId, f.inPort, redirect, FrameData)];
            return;
          }
        }
      } else {
        outPort := OFPP_FLOOD;
      }
      var actions := [Out(outPort)];
      if outPort != OFPP_FLOOD {
        var m := MatchL2(f.inPort, f.src, f.dst);
        if f.bufferId != OFP_NO_BUFFER {
          outbox := outbox + [FlowAdd(dpid, 0, 1, m, actions, FORWARD_IDLE, 0, FlowBuffer(Some(f.bufferId)))];
          return;
        } else {
          outbox := outbox + [FlowAdd(dpid, 0, 1, m, actions, FORWARD_IDLE, 0, FlowBuffer(None))];
        }
      }
      var data := if f.bufferId == OFP_NO_BUFFER then FrameData else NoData;
      outbox := outbox + [PacketOut(dpid, f.bufferId, f.inPort, actions, data)];
    }
  }
}
