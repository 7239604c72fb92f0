/** myco_ryu.py (class MycoFinalController): one learning switch whose defence is
    chosen by the MYCO_MODE setting. BASELINE only forwards; SCOUT and BOX install a
    ten-second drop rule for a source sending more than 30 frames inside one window;
    SWAP counts frames for h1 and, from the 51st on, redirects them to the proxy h2. */
module MycoRyu {
  import opened OpenFlow
  import opened RateWindow

  const RATE_THRESHOLD: nat := 30
  const LOAD_THRESHOLD: nat := 50
  /** Hard timeout of the SCOUT/BOX drop rule. */
  const ISOLATION_HARD: nat := 10

  /** The MYCO_MODE setting; `Other` is any value none of the branches names, which
      falls through to plain forwarding like BASELINE. */
  datatype Mode = Baseline | Scout | Box | Swap | Other

  datatype RyuState = RyuState(
    macToPort: map<Key, PortNo>,
    packetCounts: map<Key, nat>,
    serverLoad: nat,
    startTime: real)

  datatype Outcome = Outcome(next: RyuState, sent: seq<Message>)

  /** The port a frame for `dst` leaves by: the learned one, or a flood. */
  function OutPort(ports: map<Key, PortNo>, dpid: Dpid, dst: Mac): PortNo
  {
    if (dpid, dst) in ports then ports[(dpid, dst)] else OFPP_FLOOD
  }

  /** The normal forwarding of lines 144-157: one packet-out, never a rule. */
  function Plain(dpid: Dpid, f: Frame, ports: map<Key, PortNo>): (sent: seq<Message>)
    ensures |sent| == 1 && sent[0].PacketOut? && sent[0].actions == [Out(OutPort(ports, dpid, f.dst))]
    ensures sent[0].data == (if Buffered(f) then NoData else FrameData)
  {
    [FrameOut(dpid, f, [Out(OutPort(ports, dpid, f.dst))])]
  }

  /** `_packet_in_handler` for one frame at time `now` in `mode`. */
  function Step(mode: Mode, s: RyuState, dpid: Dpid, f: Frame, now: real): (o: Outcome)
    ensures f.ethType == ETH_TYPE_LLDP ==> o == Outcome(s, [])
  {
    if f.ethType == ETH_TYPE_LLDP then Outcome(s, [])
    else
      var ports := s.macToPort[(dpid, f.src) := f.inPort];
      var s1 := s.(macToPort := ports);
      match mode
      case Scout | Box =>
        var t := Tick(s.packetCounts, s.startTime, now, (dpid, f.src));
        var s2 := s1.(packetCounts := t.counts, startTime := t.start);
        if t.count > RATE_THRESHOLD then Outcome(s2, [DropSource(dpid, f.src, ISOLATION_HARD)])
        else Outcome(s2, Plain(dpid, f, ports))
      case Swap =>
        if f.dst == SERVER_MAC then
          var s2 := s1.(serverLoad := s.serverLoad + 1);
          if s.serverLoad + 1 > LOAD_THRESHOLD then Outcome(s2, Offload(dpid, f))
          else Outcome(s2, Plain(dpid, f, ports))
        else Outcome(s1, Plain(dpid, f, ports))
      case Baseline | Other =>
        Outcome(s1, Plain(dpid, f, ports))
  }

  /** The source is learned before the mode is looked at, in every mode. */
  lemma LearnsInEveryMode(mode: Mode, s: RyuState, dpid: Dpid, f: Frame, now: real)
    requires f.ethType != ETH_TYPE_LLDP
    ensures Step(mode, s, dpid, f, now).next.macToPort == s.macToPort[(dpid, f.src) := f.inPort]
  {
  }

  /** BASELINE (and any unrecognised mode) never touches the counters or the load
      and never installs a rule: it sends exactly one packet-out. */
  lemma BaselineOnlyForwards(mode: Mode, s: RyuState, dpid: Dpid, f: Frame, now: real)
    requires mode == Baseline || mode == Other
    requires f.ethType != ETH_TYPE_LLDP
    ensures var o := Step(mode, s, dpid, f, now);
            && o.next.packetCounts == s.packetCounts && o.next.startTime == s.startTime
            && o.next.serverLoad == s.serverLoad
            && |o.sent| == 1 && o.sent[0].PacketOut?
  {
  }

  /** SCOUT and BOX differ only in BOX's simulated processing delay, which has no
      observable effect: they take the same step on every frame. */
  lemma ScoutEqualsBox(s: RyuState, dpid: Dpid, f: Frame, now: real)
    ensures Step(Scout, s, dpid, f, now) == Step(Box, s, dpid, f, now)
  {
  }

  /** In SCOUT/BOX the frame whose count exceeds 30 gets one priority-100 drop rule
      on its source with hard timeout 10, and no packet-out; below that, it is
      forwarded. The server load is never touched. */
  lemma RateLimitDrops(mode: Mode, s: RyuState, dpid: Dpid, f: Frame, now: real)
    requires mode == Scout || mode == Box
    requires f.ethType != ETH_TYPE_LLDP
    ensures var o := Step(mode, s, dpid, f, now);
            var t := Tick(s.packetCounts, s.startTime, now, (dpid, f.src));
            && o.next.packetCounts == t.counts && o.next.serverLoad == s.serverLoad
            && (t.count > RATE_THRESHOLD ==> o.sent == [DropSource(dpid, f.src, ISOLATION_HARD)])
            && (t.count <= RATE_THRESHOLD ==> o.sent == Plain(dpid, f, o.next.macToPort))
            && (t.count > RATE_THRESHOLD <==> forall m | m in o.sent :: !m.PacketOut?)
  {
  }

  /** In SWAP a frame for h1 raises the load by one and is redirected exactly when
      the new load exceeds 50; the rate counters are never touched. */
  lemma SwapRedirectsLoadedServer(s: RyuState, dpid: Dpid, f: Frame, now: real)
    requires f.ethType != ETH_TYPE_LLDP
    ensures var o := Step(Swap, s, dpid, f, now);
            && o.next.packetCounts == s.packetCounts && o.next.startTime == s.startTime
            && o.next.serverLoad == (if f.dst == SERVER_MAC then s.serverLoad + 1 else s.serverLoad)
            && (o.sent == Offload(dpid, f) <==> f.dst == SERVER_MAC && s.serverLoad + 1 > LOAD_THRESHOLD)
  {
    var o := Step(Swap, s, dpid, f, now);
    if !(f.dst == SERVER_MAC && s.serverLoad + 1 > LOAD_THRESHOLD) {
      assert |o.sent| == 1;
    }
  }

  datatype Input = Input(dpid: Dpid, frame: Frame, now: real)

  function Run(mode: Mode, s: RyuState, ins: seq<Input>): RyuState
    decreases |ins|
  {
    if ins == [] then s
    else Run(mode, Step(mode, s, ins[0].dpid, ins[0].frame, ins[0].now).next, ins[1..])
  }

  /** The number of frames in `ins` that SWAP counts: non-LLDP frames for h1. */
  function ServerFrames(ins: seq<Input>): nat
    decreases |ins|
  {
    if ins == [] then 0
    else (if ins[0].frame.ethType != ETH_TYPE_LLDP && ins[0].frame.dst == SERVER_MAC then 1 else 0)
         + ServerFrames(ins[1..])
  }

  /** The SWAP load is never reset: after any run it has grown by exactly the number
      of frames for h1 seen. */
  lemma {:induction false} SwapLoadCountsServerFrames(s: RyuState, ins: seq<Input>)
    ensures Run(Swap, s, ins).serverLoad == s.serverLoad + ServerFrames(ins)
    decreases |ins|
  {
    if ins != [] {
      SwapLoadCountsServerFrames(Step(Swap, s, ins[0].dpid, ins[0].frame, ins[0].now).next, ins[1..]);
    }
  }

  /** Once the load has passed the threshold, every later frame for h1 is
      redirected to the proxy, whatever happened in between. */
  lemma OnceLoadedAlwaysRedirected(s: RyuState, ins: seq<Input>, dpid: Dpid, f: Frame, now: real)
    requires s.serverLoad >= LOAD_THRESHOLD
    requires f.ethType != ETH_TYPE_LLDP && f.dst == SERVER_MAC
    ensures Step(Swap, Run(Swap, s, ins), dpid, f, now).sent == Offload(dpid, f)
  {
    SwapLoadCountsServerFrames(s, ins);
  }

  /** The Ryu application object of myco_ryu.py (its `quarantine_list` is never
      used and is not modelled). */
  class MycoFinalController {
    const mode: Mode
    var macToPort: map<Key, PortNo>
    var packetCounts: map<Key, nat>
    var serverLoadCounter: nat
    var startTime: real
    var outbox: seq<Message>

    function Snapshot(): RyuState
      reads this
    {
      RyuState(macToPort, packetCounts, serverLoadCounter, startTime)
    }

    constructor (mode: Mode, now: real)
      ensures this.mode == mode
      ensures Snapshot() == RyuState(map[], map[], 0, now) && outbox == []
    {
      this.mode := mode;
      macToPort, packetCounts, serverLoadCounter, startTime := map[], map[], 0, now;
      outbox := [];
    }

    method SwitchFeatures(dpid: Dpid)
      modifies this
      ensures Snapshot() == old(Snapshot()) && outbox == old(outbox) + [TableMiss(dpid)]
    {
      outbox := outbox + [TableMiss(dpid)];
    }

    /** `check_rate_limit(dpid, src)`: count the frame, report whether it is over 30. */
    method CheckRateLimit(dpid: Dpid, src: Mac, now: real) returns (limited: bool)
      modifies this
      ensures var t := Tick(old(packetCounts), old(startTime), now, (dpid, src));
              packetCounts == t.counts && startTime == t.start && (limited <==> t.count > RATE_THRESHOLD)
      ensures macToPort == old(macToPort) && serverLoadCounter == old(serverLoadCounter) && outbox == old(outbox)
    {
      if now - startTime > 1.0 {
        packetCounts := map[];
        startTime := now;
      }
      var key := (dpid, src);
      packetCounts := packetCounts[key := CountOf(packetCounts, key) + 1];
      return packetCounts[key] > RATE_THRESHOLD;
    }

    method PacketIn(dpid: Dpid, f: Frame, now: real)
      modifies this
      ensures var o := Step(mode, old(Snapshot()), dpid, f, now);
              Snapshot() == o.next && outbox == old(outbox) + o.sent
    {
      if f.ethType == ETH_TYPE_LLDP {
        return;
      }
      macToPort := macToPort[(dpid, f.src) := f.inPort];
      if mode == Baseline {
        // fall through to normal forwarding
      } else if mode == Scout || mode == Box {
        var limited := CheckRateLimit(dpid, f.src, now);
        if limited {
          outbox := outbox + [FlowAdd(dpid, 0, 100, MatchEthSrc(f.src), [], 0, ISOLATION_HARD, FlowBuffer(None))];
          return;
        }
      } else if mode == Swap {
        if f.dst == SERVER_MAC {
          serverLoadCounter := serverLoadCounter + 1;
          if serverLoadCounter > LOAD_THRESHOLD {
            var actions := [SetEthDst(PROXY_MAC), Out(OFPP_NORMAL)];
            outbox := outbox + [FlowAdd(dpid, 0, 50, MatchInDst(f.inPort, f.dst), actions, 1, 1, FlowBuffer(None))];
            outbox := outbox + [PacketOut(dpid, f.bufferId, f.inPort, actions, FrameData)];
            return;
          }
        }
      }
      var outPort := if (dpid, f.dst) in macToPort then macToPort[(dpid, f.dst)] else OFPP_FLOOD;
      var data := if f.bufferId == OFP_NO_BUFFER then FrameData else NoData;
      outbox := outbox + [PacketOut(dpid, f.bufferId, f.inPort, [Out(outPort)], data)];
    }
  }
}
