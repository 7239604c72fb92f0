/** myco_controller_v2.py (class MycoFinalController): the compact rewrite of
    myco_ryu.py, whose strategy dispatch is one if/elif chain of `MODE == X and
    check_rate_limit(...)` tests. Python's `and` evaluates the rate check only when
    the mode matches, so each frame is counted at most once; the rewrite takes the
    same step as myco_ryu.py on every frame. */
module ControllerV2 {
  import opened OpenFlow
  import opened RateWindow
  import MycoRyu

  /** `MODE == want and check_rate_limit(dpid, src)`: the counters are updated only
      when the mode matches; `hit` is the value of the whole test. */
  datatype Guard = Guard(hit: bool, next: MycoRyu.RyuState)

  function RateGuard(mode: MycoRyu.Mode, want: MycoRyu.Mode, s: MycoRyu.RyuState, dpid: Dpid, src: Mac, now: real): (g: Guard)
    ensures mode != want ==> g == Guard(false, s)
    ensures mode == want ==>
              var t := Tick(s.packetCounts, s.startTime, now, (dpid, src));
              g.next == s.(packetCounts := t.counts, startTime := t.start) && (g.hit <==> t.count > MycoRyu.RATE_THRESHOLD)
  {
    if mode != want then Guard(false, s)
    else
      var t := Tick(s.packetCounts, s.startTime, now, (dpid, src));
      Guard(t.count > MycoRyu.RATE_THRESHOLD, s.(packetCounts := t.counts, startTime := t.start))
  }

  /** `_packet_in_handler` for one frame, following the if/elif chain of lines 94-120. */
  function Step(mode: MycoRyu.Mode, s: MycoRyu.RyuState, dpid: Dpid, f: Frame, now: real): (o: MycoRyu.Outcome)
    ensures f.ethType == ETH_TYPE_LLDP ==> o == MycoRyu.Outcome(s, [])
    // every other frame's source is learned first, in every mode
    ensures f.ethType != ETH_TYPE_LLDP ==> o.next.macToPort == s.macToPort[(dpid, f.src) := f.inPort]
    // the server load moves only in SWAP, by one for a frame for h1
    ensures f.ethType != ETH_TYPE_LLDP ==>
              o.next.serverLoad == s.serverLoad + (if mode == MycoRyu.Swap && f.dst == SERVER_MAC then 1 else 0)
    // a frame is either isolated (one drop rule) or delivered (no drop rule)
    ensures forall m | m in o.sent :: IsDropRule(m) ==> o.sent == [DropSource(dpid, f.src, MycoRyu.ISOLATION_HARD)]
  {
    if f.ethType == ETH_TYPE_LLDP then MycoRyu.Outcome(s, [])
    else
      var s1 := s.(macToPort := s.macToPort[(dpid, f.src) := f.inPort]);
      var scout := RateGuard(mode, MycoRyu.Scout, s1, dpid, f.src, now);
      if scout.hit then MycoRyu.Outcome(scout.next, [DropSource(dpid, f.src, MycoRyu.ISOLATION_HARD)])
      else
        var box := RateGuard(mode, MycoRyu.Box, scout.next, dpid, f.src, now);
        if box.hit then MycoRyu.Outcome(box.next, [DropSource(dpid, f.src, MycoRyu.ISOLATION_HARD)])
        else if mode == MycoRyu.Swap && f.dst == SERVER_MAC then
          var s2 := box.next.(serverLoad := box.next.serverLoad + 1);
          if s2.serverLoad > MycoRyu.LOAD_THRESHOLD then MycoRyu.Outcome(s2, Offload(dpid, f))
          else MycoRyu.Outcome(s2, MycoRyu.Plain(dpid, f, s2.macToPort))
        else MycoRyu.Outcome(box.next, MycoRyu.Plain(dpid, f, box.next.macToPort))
  }

  /** Each frame is counted at most once: in SCOUT or BOX exactly once, in every
      other mode not at all. */
  lemma CountedAtMostOnce(mode: MycoRyu.Mode, s: MycoRyu.RyuState, dpid: Dpid, f: Frame, now: real)
    requires f.ethType != ETH_TYPE_LLDP
    ensures var o := Step(mode, s, dpid, f, now);
            var t := Tick(s.packetCounts, s.startTime, now, (dpid, f.src));
            && (mode == MycoRyu.Scout || mode == MycoRyu.Box ==> o.next.packetCounts == t.counts && o.next.startTime == t.start)
            && (mode != MycoRyu.Scout && mode != MycoRyu.Box ==> o.next.packetCounts == s.packetCounts && o.next.startTime == s.startTime)
  {
  }

  /** The rewrite behaves exactly like myco_ryu.py: same new state, same messages,
      for every mode, state and frame. */
  lemma SameAsMycoRyu(mode: MycoRyu.Mode, s: MycoRyu.RyuState, dpid: Dpid, f: Frame, now: real)
    ensures Step(mode, s, dpid, f, now) == MycoRyu.Step(mode, s, dpid, f, now)
  {
  }

  /** The Ryu application object of myco_controller_v2.py. */
  class MycoFinalController {
    const mode: MycoRyu.Mode
    var macToPort: map<Key, PortNo>
    var packetCounts: map<Key, nat>
    var serverLoadCounter: nat
    var startTime: real
    var outbox: seq<Message>

    function Snapshot(): MycoRyu.RyuState
      reads this
    {
      MycoRyu.RyuState(macToPort, packetCounts, serverLoadCounter, startTime)
    }

    constructor (mode: MycoRyu.Mode, now: real)
      ensures this.mode == mode
      ensures Snapshot() == MycoRyu.RyuState(map[], map[], 0, now) && outbox == []
    {
      this.mode := mode;
      macToPort, packetCounts, serverLoadCounter, startTime := map[], map[], 0, now;
      outbox := [];
    }

    method SwitchFeatures(dpid: Dpid)
      modifies this
      ensures Snapshot() == old(Snapshot()) && outbox == old(outbox) + [TableMiss(dpid)]
    {
      outbox := outbox + [TableMiss(dpid)];
    }

    /** `check_rate_limit(dpid, src)`. */
    method CheckRateLimit(dpid: Dpid, src: Mac, now: real) returns (limited: bool)
      modifies this
      ensures var t := Tick(old(packetCounts), old(startTime), now, (dpid, src));
              packetCounts == t.counts && startTime == t.start && (limited <==> t.count > MycoRyu.RATE_THRESHOLD)
      ensures macToPort == old(macToPort) && serverLoadCounter == old(serverLoadCounter) && outbox == old(outbox)
    {
      if now - startTime > 1.0 {
        packetCounts := map[];
        startTime := now;
      }
      var key := (dpid, src);
      packetCounts := packetCounts[key := CountOf(packetCounts, key) + 1];
      return packetCounts[key] > MycoRyu.RATE_THRESHOLD;
    }

    method PacketIn(dpid: Dpid, f: Frame, now: real)
      modifies this
      ensures var o := Step(mode, old(Snapshot()), dpid, f, now);
              Snapshot() == o.next && outbox == old(outbox) + o.sent
    {
      if f.ethType == ETH_TYPE_LLDP {
        return;
      }
      macToPort := macToPort[(dpid, f.src) := f.inPort];
      // `MODE == 'SCOUT' and check_rate_limit(...)`: the check runs only in SCOUT
      var scoutHit := false;
      if mode == MycoRyu.Scout {
        scoutHit := CheckRateLimit(dpid, f.src, now);
      }
      if scoutHit {
        outbox := outbox + [FlowAdd(dpid, 0, 100, MatchEthSrc(f.src), [], 0, MycoRyu.ISOLATION_HARD, FlowBuffer(None))];
        return;
      }
      var boxHit := false;
      if mode == MycoRyu.Box {
        boxHit := CheckRateLimit(dpid, f.src, now);
      }
      if boxHit {
        outbox := outbox + [FlowAdd(dpid, 0, 100, MatchEthSrc(f.src), [], 0, MycoRyu.ISOLATION_HARD, FlowBuffer(None))];
        return;
      } else if mode == MycoRyu.Swap && f.dst == SERVER_MAC {
        serverLoadCounter := serverLoadCounter + 1;
        if serverLoadCounter > MycoRyu.LOAD_THRESHOLD {
          var actions := [SetEthDst(PROXY_MAC), Out(OFPP_NORMAL)];
          outbox := outbox + [FlowAdd(dpid, 0, 50, MatchInDst(f.inPort, f.dst), actions, 1, 1, FlowBuffer(None))];
          outbox := outbox + [PacketOut(dpid, f.bufferId, f.inPort, actions, FrameData)];
          return;
        }
      }
      var outPort := if (dpid, f.dst) in macToPort then macToPort[(dpid, f.dst)] else OFPP_FLOOD;
      var data := if f.bufferId == OFP_NO_BUFFER then FrameData else NoData;
      outbox := outbox + [PacketOut(dpid, f.bufferId, f.inPort, [Out(outPort)], data)];
    }
  }
}
