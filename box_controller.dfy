/** myco_box_controller.py (class MycoBoxController): the permanent-blacklist
    variant. Every frame is counted; the one that pushes its (switch, source) count
    above 20 inside a window bans its source for good, and banned sources are never
    learned or forwarded again. */
module BoxController {
  import opened OpenFlow
  import opened RateWindow

  const THRESHOLD: nat := 20

  datatype BoxState = BoxState(
    macToPort: map<Key, PortNo>,
    packetCounts: map<Key, nat>,
    blacklist: set<Mac>,
    startTime: real)

  datatype Outcome = Outcome(next: BoxState, sent: seq<Message>)

  /** The result of `block_host`: the new blacklist and the rules sent. */
  datatype Ban = Ban(blacklist: set<Mac>, sent: seq<Message>)

  /** `block_host(datapath, src)`: a new suspect is added and gets one permanent
      priority-100 drop rule; an already banned MAC changes nothing. */
  function Block(blacklist: set<Mac>, dpid: Dpid, src: Mac): (b: Ban)
    ensures b.blacklist == blacklist + {src}
    ensures src in blacklist <==> b.sent == []
    ensures src !in blacklist ==>
              && |b.sent| == 1 && IsDropRule(b.sent[0]) && b.sent[0].dpid == dpid
              && b.sent[0].priority == 100 && b.sent[0].flowMatch == MatchEthSrc(src)
              && b.sent[0].idleTimeout == 0 && b.sent[0].hardTimeout == 0
  {
    if src in blacklist then Ban(blacklist, [])
    else Ban(blacklist + {src}, [DropSource(dpid, src, 0)])
  }

  /** `_packet_in_handler` for one frame at time `now`. */
  function Step(s: BoxState, dpid: Dpid, f: Frame, now: real): (o: Outcome)
    ensures f.ethType == ETH_TYPE_LLDP ==> o == Outcome(s, [])
  {
    if f.ethType == ETH_TYPE_LLDP then Outcome(s, [])
    else
      var t := Tick(s.packetCounts, s.startTime, now, (dpid, f.src));
      var s1 := s.(packetCounts := t.counts, startTime := t.start);
      if t.count > THRESHOLD then
        var b := Block(s.blacklist, dpid, f.src);
        Outcome(s1.(blacklist := b.blacklist), b.sent)
      else if f.src in s.blacklist then Outcome(s1, [])
      else
        var ports := s.macToPort[(dpid, f.src) := f.inPort];
        Outcome(s1.(macToPort := ports), L2Forward(dpid, f, ports, 0))
  }

  /** Every non-LLDP frame is counted, a banned source's included: the counters are
      updated before the blacklist is consulted. */
  lemma EveryFrameCounted(s: BoxState, dpid: Dpid, f: Frame, now: real)
    requires f.ethType != ETH_TYPE_LLDP
    ensures var o := Step(s, dpid, f, now);
            var t := Tick(s.packetCounts, s.startTime, now, (dpid, f.src));
            && o.next.packetCounts == t.counts && o.next.startTime == t.start
            && CountOf(o.next.packetCounts, (dpid, f.src)) >= 1
  {
  }

  /** The frame over the threshold is never forwarded: at most the ban's drop rule
      is sent, and nothing is learned. */
  lemma OverThresholdNotForwarded(s: BoxState, dpid: Dpid, f: Frame, now: real)
    requires f.ethType != ETH_TYPE_LLDP
    requires Tick(s.packetCounts, s.startTime, now, (dpid, f.src)).count > THRESHOLD
    ensures var o := Step(s, dpid, f, now);
            && f.src in o.next.blacklist
            && o.next.macToPort == s.macToPort
            && (forall m | m in o.sent :: IsDropRule(m))
            && (f.src in s.blacklist <==> o.sent == [])
  {
  }

  /** A banned source is silenced: none of its frames is learned or answered. */
  lemma BlacklistedSilenced(s: BoxState, dpid: Dpid, f: Frame, now: real)
    requires f.src in s.blacklist
    ensures var o := Step(s, dpid, f, now);
            o.sent == [] && o.next.macToPort == s.macToPort && o.next.blacklist == s.blacklist
  {
  }

  /** Below the threshold, a frame from a source that is not banned is learned and
      forwarded like the plain learning switch (rules never expire: idle 0). */
  lemma CleanSourceForwarded(s: BoxState, dpid: Dpid, f: Frame, now: real)
    requires f.ethType != ETH_TYPE_LLDP && f.src !in s.blacklist
    requires Tick(s.packetCounts, s.startTime, now, (dpid, f.src)).count <= THRESHOLD
    ensures var o := Step(s, dpid, f, now);
            var ports := s.macToPort[(dpid, f.src) := f.inPort];
            && o.next.macToPort == ports && o.next.blacklist == s.blacklist
            && o.sent == L2Forward(dpid, f, ports, 0)
  {
  }

  datatype Input = Input(dpid: Dpid, frame: Frame, now: real)

  function Run(s: BoxState, ins: seq<Input>): BoxState
    decreases |ins|
  {
    if ins == [] then s
    else Run(Step(s, ins[0].dpid, ins[0].frame, ins[0].now).next, ins[1..])
  }

  /** The learning entries of MAC `m` are the same in `a` and `b`. */
  ghost predicate SameEntries(a: map<Key, PortNo>, b: map<Key, PortNo>, m: Mac)
  {
    forall d: Dpid :: ((d, m) in a <==> (d, m) in b) && ((d, m) in a ==> a[(d, m)] == b[(d, m)])
  }

  /** One frame never shrinks the blacklist, and never changes the learning
      entries of a banned MAC. */
  lemma StepKeepsBans(s: BoxState, i: Input, m: Mac)
    ensures s.blacklist <= Step(s, i.dpid, i.frame, i.now).next.blacklist
    ensures m in s.blacklist ==> SameEntries(s.macToPort, Step(s, i.dpid, i.frame, i.now).next.macToPort, m)
  {
  }

  /** No run ever removes a MAC from the blacklist, and a banned MAC's learning
      entries are frozen from the moment of its ban. */
  lemma {:induction false} RunKeepsBans(s: BoxState, ins: seq<Input>, m: Mac)
    ensures s.blacklist <= Run(s, ins).blacklist
    ensures m in s.blacklist ==> SameEntries(s.macToPort, Run(s, ins).macToPort, m)
    decreases |ins|
  {
    if ins != [] {
      var s' := Step(s, ins[0].dpid, ins[0].frame, ins[0].now).next;
      StepKeepsBans(s, ins[0], m);
      RunKeepsBans(s', ins[1..], m);
    }
  }

  /** The Ryu application object of myco_box_controller.py. */
  class MycoBoxController {
    var macToPort: map<Key, PortNo>
    var packetCounts: map<Key, nat>
    var blacklist: set<Mac>
    var startTime: real
    var outbox: seq<Message>

    function Snapshot(): BoxState
      reads this
    {
      BoxState(macToPort, packetCounts, blacklist, startTime)
    }

    constructor (now: real)
      ensures Snapshot() == BoxState(map[], map[], {}, now) && outbox == []
    {
      macToPort, packetCounts, blacklist, startTime := map[], map[], {}, now;
      outbox := [];
    }

    method SwitchFeatures(dpid: Dpid)
      modifies this
      ensures Snapshot() == old(Snapshot()) && outbox == old(outbox) + [TableMiss(dpid)]
    {
      outbox := outbox + [TableMiss(dpid)];
    }

    method BlockHost(dpid: Dpid, srcMac: Mac)
      modifies this
      ensures var b := Block(old(blacklist), dpid, srcMac);
              blacklist == b.blacklist && outbox == old(outbox) + b.sent
      ensures macToPort == old(macToPort) && packetCounts == old(packetCounts) && startTime == old(startTime)
    {
      if srcMac in blacklist {
        return;
      }
      blacklist := blacklist + {srcMac};
      outbox := outbox + [FlowAdd(dpid, 0, 100, MatchEthSrc(srcMac), [], 0, 0, FlowBuffer(None))];
    }

    method PacketIn(dpid: Dpid, f: Frame, now: real)
      modifies this
      ensures var o := Step(old(Snapshot()), dpid, f, now);
              Snapshot() == o.next && outbox == old(outbox) + o.sent
    {
      if f.ethType == ETH_TYPE_LLDP {
        return;
      }
      // detection: reset the window, count, check the threshold
      if now - startTime > 1.0 {
        packetCounts := map[];
        startTime := now;
      }
      var key := (dpid, f.src);
      packetCounts := packetCounts[key := CountOf(packetCounts, key) + 1];
      if packetCounts[key] > THRESHOLD {
        BlockHost(dpid, f.src);
        return;
      }
      if f.src in blacklist {
        return;
      }
      macToPort := macToPort[key := f.inPort];
      var outPort := if (dpid, f.dst) in macToPort then macToPort[(dpid, f.dst)] else OFPP_FLOOD;
      var actions := [Out(outPort)];
      if outPort != OFPP_FLOOD {
        var m := MatchL2(f.inPort, f.src, f.dst);
        if f.bufferId != OFP_NO_BUFFER {
          outbox := outbox + [FlowAdd(dpid, 0, 1, m, actions, 0, 0, FlowBuffer(Some(f.bufferId)))];
          return;
        } else {
          outbox := outbox + [FlowAdd(dpid, 0, 1, m, actions, 0, 0, FlowBuffer(None))];
        }
      }
      var data := if f.bufferId == OFP_NO_BUFFER then FrameData else NoData;
      outbox := outbox + [PacketOut(dpid, f.bufferId, f.inPort, actions, data)];
    }
  }
}
