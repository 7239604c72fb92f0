/** The slice of OpenFlow 1.3 that the controllers speak: frames handed up in
    packet-in events, and the flow-mods, packet-outs and echo requests sent back.
    Every `send_msg` of the controllers becomes one `Message` appended to an
    outbox; the switch itself is not modelled. */
module OpenFlow {

  type Mac = string
  type Ip = string
  type Dpid = int
  type PortNo = int
  /** A (switch, MAC) pair: the key of the learning table and of the rate counters. */
  type Key = (Dpid, Mac)

  // Reserved port numbers and buffer values of OpenFlow 1.3 (ofp_port_no, ofp_buffer_id)
  const OFPP_NORMAL: PortNo := 0xffff_fffa
  const OFPP_FLOOD: PortNo := 0xffff_fffb
  const OFPP_CONTROLLER: PortNo := 0xffff_fffd
  const OFP_NO_BUFFER: int := 0xffff_ffff
  const OFPCML_MAX: int := 0xffe5
  const OFPCML_NO_BUFFER: int := 0xffff

  const ETH_TYPE_IP: int := 0x0800
  const ETH_TYPE_ARP: int := 0x0806
  const ETH_TYPE_LLDP: int := 0x88cc
  const ARP_REQUEST: int := 1
  const ARP_REPLY: int := 2

  /** The main server h1 and the standby proxy h2 of the experiment topology. */
  const SERVER_MAC: Mac := "00:00:00:00:00:01"
  const PROXY_MAC: Mac := "00:00:00:00:00:02"

  datatype Option<T> = None | Some(value: T)

  /** OFPMatch: a field left `None` is a wildcard. */
  datatype Match = Match(
    inPort: Option<PortNo>,
    ethType: Option<int>,
    ethSrc: Option<Mac>,
    ethDst: Option<Mac>,
    ipv4Src: Option<Ip>,
    ipv4Dst: Option<Ip>)

  const MatchAll: Match := Match(None, None, None, None, None, None)

  function MatchEthSrc(src: Mac): Match { MatchAll.(ethSrc := Some(src)) }

  function MatchL2(inPort: PortNo, src: Mac, dst: Mac): Match
  {
    MatchAll.(inPort := Some(inPort), ethSrc := Some(src), ethDst := Some(dst))
  }

  function MatchInDst(inPort: PortNo, dst: Mac): Match
  {
    MatchAll.(inPort := Some(inPort), ethDst := Some(dst))
  }

  datatype Action =
    | Output(port: PortNo, maxLen: int)
    | SetEthSrc(mac: Mac)
    | SetEthDst(mac: Mac)
    | SetIpv4Src(ip: Ip)
    | SetIpv4Dst(ip: Ip)

  /** OFPActionOutput(port) with Ryu's default max_len. */
  function Out(port: PortNo): Action { Output(port, OFPCML_MAX) }

  /** OFPActionOutput(OFPP_CONTROLLER, OFPCML_NO_BUFFER): the whole frame goes to the controller. */
  const ToController: Action := Output(OFPP_CONTROLLER, OFPCML_NO_BUFFER)

  /** What a packet-out carries: nothing (the switch releases a buffered frame),
      the frame of the packet-in, or a frame the controller built (an ARP reply). */
  datatype Payload =
    | NoData
    | FrameData
    | ArpData(ethDst: Mac, ethSrc: Mac, opcode: int, srcMac: Mac, srcIp: Ip, dstMac: Mac, dstIp: Ip)

  datatype Message =
    /** OFPFlowMod with command ADD; an empty action list drops matching frames. */
    | FlowAdd(dpid: Dpid, cookie: int, priority: nat, flowMatch: Match, actions: seq<Action>,
              idleTimeout: nat, hardTimeout: nat, bufferId: int)
    /** OFPFlowMod with command DELETE, an all-wildcard match and an all-ones cookie mask:
        removes every rule of the switch whose cookie equals `cookie`. */
    | FlowDelete(dpid: Dpid, cookie: int)
    | PacketOut(dpid: Dpid, bufferId: int, inPort: PortNo, actions: seq<Action>, data: Payload)
    /** OFPEchoRequest whose data is the decimal text of `probe`. */
    | EchoRequest(dpid: Dpid, probe: int)

  /** A port number below OFPP_MAX: a real switch port, never a reserved one. */
  predicate PhysicalPort(p: PortNo) { 0 <= p < 0xffff_ff00 }

  predicate IsDropRule(m: Message) { m.FlowAdd? && m.actions == [] }

  /** The rules a cookie delete removes: the adds on its switch that carry its cookie. */
  predicate Removes(del: Message, rule: Message)
  {
    del.FlowDelete? && rule.FlowAdd? && rule.dpid == del.dpid && rule.cookie == del.cookie
  }

  /** A frame handed to the controller by a packet-in: the ingress port, the
      switch buffer holding it, and the Ethernet (and, when present, ARP) header. */
  datatype Frame = Frame(
    inPort: PortNo,
    bufferId: int,
    ethType: int,
    src: Mac,
    dst: Mac,
    arp: Option<ArpHeader>)

  datatype ArpHeader = ArpHeader(opcode: int, srcMac: Mac, srcIp: Ip, dstMac: Mac, dstIp: Ip)

  predicate Buffered(f: Frame) { f.bufferId != OFP_NO_BUFFER }

  /** The buffer id a flow-mod carries when `add_flow` is passed `b`: Ryu's
      `buffer_id or OFP_NO_BUFFER` (and `if buffer_id:`) turn a missing or zero id
      into OFP_NO_BUFFER. */
  function FlowBuffer(b: Option<int>): (r: int)
    ensures b.Some? && b.value != 0 ==> r == b.value
    ensures b.None? || b.value == 0 ==> r == OFP_NO_BUFFER
  {
    match b
    case None => OFP_NO_BUFFER
    case Some(v) => if v == 0 then OFP_NO_BUFFER else v
  }

  /** The table-miss rule every controller installs when a switch connects. */
  function TableMiss(dpid: Dpid): (m: Message)
    // the lowest-priority, permanent catch-all that sends every frame to the controller
    ensures m.FlowAdd? && m.dpid == dpid && m.priority == 0 && m.flowMatch == MatchAll
    ensures m.actions == [ToController] && !IsDropRule(m)
    ensures m.idleTimeout == 0 && m.hardTimeout == 0 && m.cookie == 0
  {
    FlowAdd(dpid, 0, 0, MatchAll, [ToController], 0, 0, OFP_NO_BUFFER)
  }

  /** The isolation rule: drop everything sent by `src`, at priority 100. */
  function DropSource(dpid: Dpid, src: Mac, hard: nat): (m: Message)
    ensures IsDropRule(m) && m.priority == 100 && m.flowMatch.ethSrc == Some(src)
    ensures m.hardTimeout == hard && m.idleTimeout == 0
  {
    FlowAdd(dpid, 0, 100, MatchEthSrc(src), [], 0, hard, OFP_NO_BUFFER)
  }

  /** A packet-out re-injecting the frame of a packet-in; the frame's bytes are
      attached only when the switch did not buffer it. */
  function FrameOut(dpid: Dpid, f: Frame, actions: seq<Action>): (m: Message)
    ensures m.PacketOut? && m.dpid == dpid && m.bufferId == f.bufferId && m.inPort == f.inPort && m.actions == actions
    ensures m.data == (if Buffered(f) then NoData else FrameData)
  {
    PacketOut(dpid, f.bufferId, f.inPort, actions, if Buffered(f) then NoData else FrameData)
  }

  /** The L2-learning tail of the packet-in handlers, once `ports` has learned the
      source: toward a learned destination port, a priority-1 rule (and, for an
      unbuffered frame, a packet-out; a buffered frame is released by the rule);
      toward an unknown destination, a flood and no rule. */
  function L2Forward(dpid: Dpid, f: Frame, ports: map<Key, PortNo>, idle: nat): (sent: seq<Message>)
    ensures (dpid, f.dst) in ports && PhysicalPort(ports[(dpid, f.dst)]) ==>
              var rule := FlowAdd(dpid, 0, 1, MatchL2(f.inPort, f.src, f.dst), [Out(ports[(dpid, f.dst)])],
                                  idle, 0, FlowBuffer(if Buffered(f) then Some(f.bufferId) else None));
              sent == if Buffered(f) then [rule] else [rule, FrameOut(dpid, f, [Out(ports[(dpid, f.dst)])])]
    ensures (dpid, f.dst) !in ports ==> sent == [FrameOut(dpid, f, [Out(OFPP_FLOOD)])]
    ensures forall m | m in sent :: !IsDropRule(m) && (m.FlowAdd? ==> m.priority == 1 && m.idleTimeout == idle)
  {
    var outPort := if (dpid, f.dst) in ports then ports[(dpid, f.dst)] else OFPP_FLOOD;
    var actions := [Out(outPort)];
    if outPort != OFPP_FLOOD then
      var rule := FlowAdd(dpid, 0, 1, MatchL2(f.inPort, f.src, f.dst), actions, idle, 0,
                          FlowBuffer(if Buffered(f) then Some(f.bufferId) else None));
      if Buffered(f) then [rule] else [rule, FrameOut(dpid, f, actions)]
    else
      [FrameOut(dpid, f, actions)]
  }

  /** The load-offload redirect of the SWAP variants: rewrite the destination to the
      proxy h2 and let the switch's normal pipeline deliver it. */
  const OffloadActions: seq<Action> := [SetEthDst(PROXY_MAC), Out(OFPP_NORMAL)]

  /** A one-second redirect rule (priority 50, idle 1, hard 1) matching the ingress
      port and the original destination, plus a packet-out carrying the frame with
      the same actions. */
  function Offload(dpid: Dpid, f: Frame): (sent: seq<Message>)
    ensures |sent| == 2 && sent[0].FlowAdd? && sent[1].PacketOut?
    ensures sent[0].priority == 50 && sent[0].idleTimeout == 1 && sent[0].hardTimeout == 1
    ensures sent[0].flowMatch == MatchInDst(f.inPort, f.dst)
    ensures sent[0].actions == sent[1].actions == [SetEthDst(PROXY_MAC), Out(OFPP_NORMAL)]
    ensures sent[1].data == FrameData && sent[1].bufferId == f.bufferId
  {
    [FlowAdd(dpid, 0, 50, MatchInDst(f.inPort, f.dst), OffloadActions, 1, 1, OFP_NO_BUFFER),
     PacketOut(dpid, f.bufferId, f.inPort, OffloadActions, FrameData)]
  }
}
