/** myco_barrier_logic.py: the Myco-Barrier pipeline with first-degree isolation
    and the two-step verification queue. Each non-LLDP frame is screened by the
    reintegration check, counted in the one-second window, isolated above 30
    frames per window, and otherwise L2-forwarded. */
module BarrierLogic {
  import opened OpenFlow
  import opened RateWindow
  import opened Quarantine

  const DETECTION_THRESHOLD: nat := 30
  /** idle_timeout of the forwarding rules */
  const FORWARD_IDLE: nat := 5

  /** The mutable fields of MycoBarrierLogic, as one value. */
  datatype BarrierState = BarrierState(
    macToPort: map<Key, PortNo>,
    packetCounts: map<Key, nat>,
    quarantine: Table,
    pending: set<Mac>,
    startTime: real)

  predicate Valid(s: BarrierState) { PendingInTable(s.quarantine, s.pending) }

  /** The new state and the messages sent by one handler call. */
  datatype Outcome = Outcome(next: BarrierState, sent: seq<Message>)

  /** `isolate_node`: quarantine `src` until now + RECOVERY_TIME and push a drop rule
      that the switch itself expires after RECOVERY_TIME seconds. */
  function Isolate(s: BarrierState, dpid: Dpid, src: Mac, now: real): (o: Outcome)
    // already isolated: no state change, no rule
    ensures src in s.quarantine ==> o == Outcome(s, [])
    ensures src !in s.quarantine ==>
              && o.next == s.(quarantine := s.quarantine[src := now + RECOVERY_TIME as real])
              && |o.sent| == 1 && o.sent[0].dpid == dpid && IsDropRule(o.sent[0])
              && o.sent[0].priority == 100 && o.sent[0].flowMatch == MatchEthSrc(src)
              && o.sent[0].hardTimeout == RECOVERY_TIME
    ensures Valid(s) ==> Valid(o.next)
  {
    if src in s.quarantine then Outcome(s, [])
    else Outcome(s.(quarantine := s.quarantine[src := now + RECOVERY_TIME as real]),
                 [DropSource(dpid, src, RECOVERY_TIME)])
  }

  /** `_packet_in_handler` for one frame from switch `dpid`, at time `now`, with
      `clean` the outcome of a verification trial should one be drawn. */
  function Step(s: BarrierState, dpid: Dpid, f: Frame, now: real, clean: bool): (o: Outcome)
    ensures f.ethType == ETH_TYPE_LLDP ==> o == Outcome(s, [])
    ensures Valid(s) ==> Valid(o.next)
  {
    if f.ethType == ETH_TYPE_LLDP then Outcome(s, [])
    else
      var g := Reintegration(s.quarantine, s.pending, f.src, now, clean);
      var s1 := s.(quarantine := g.table, pending := g.pending);
      if !g.allowed then Outcome(s1, [])
      else
        var t := Tick(s.packetCounts, s.startTime, now, (dpid, f.src));
        var s2 := s1.(packetCounts := t.counts, startTime := t.start);
        if t.count > DETECTION_THRESHOLD then Isolate(s2, dpid, f.src, now)
        else Forwarding(s2, dpid, f)
  }

  /** Step 3 of `_packet_in_handler`: learn the source's port, then forward. */
  function Forwarding(s: BarrierState, dpid: Dpid, f: Frame): (o: Outcome)
    // the source is learned on its ingress port; nothing else in the state changes
    ensures o.next.macToPort.Keys == s.macToPort.Keys + {(dpid, f.src)}
    ensures o.next.macToPort[(dpid, f.src)] == f.inPort
    ensures forall k | k in s.macToPort && k != (dpid, f.src) :: o.next.macToPort[k] == s.macToPort[k]
    ensures o.next.(macToPort := s.macToPort) == s
    // forwarding never drops: every message delivers the frame
    ensures forall m | m in o.sent :: !IsDropRule(m)
  {
    var ports := s.macToPort[(dpid, f.src) := f.inPort];
    Outcome(s.(macToPort := ports), L2Forward(dpid, f, ports, FORWARD_IDLE))
  }

  /** A frame the reintegration check refuses is neither counted nor learned, and
      nothing is sent for it. */
  lemma RefusedFrameIgnored(s: BarrierState, dpid: Dpid, f: Frame, now: real, clean: bool)
    requires f.ethType != ETH_TYPE_LLDP
    requires !Reintegration(s.quarantine, s.pending, f.src, now, clean).allowed
    ensures var o := Step(s, dpid, f, now, clean);
            && o.sent == []
            && o.next.packetCounts == s.packetCounts && o.next.startTime == s.startTime
            && o.next.macToPort == s.macToPort
  {
  }

  /** The frame whose post-increment count exceeds the threshold isolates its source
      (which the screening step has just shown to be unquarantined, so the guard in
      `isolate_node` never fires from here) and is neither learned nor forwarded. */
  lemma DetectionIsolates(s: BarrierState, dpid: Dpid, f: Frame, now: real, clean: bool)
    requires f.ethType != ETH_TYPE_LLDP
    requires Reintegration(s.quarantine, s.pending, f.src, now, clean).allowed
    requires Tick(s.packetCounts, s.startTime, now, (dpid, f.src)).count > DETECTION_THRESHOLD
    ensures var o := Step(s, dpid, f, now, clean);
            && o.sent == [DropSource(dpid, f.src, RECOVERY_TIME)]
            && o.next.quarantine == Reintegration(s.quarantine, s.pending, f.src, now, clean).table[f.src := now + RECOVERY_TIME as real]
            && o.next.macToPort == s.macToPort
  {
  }

  /** A frame at or below the threshold is never isolated: the source is learned on
      its ingress port and forwarded, and the quarantine table is the one the
      screening step left. */
  lemma BelowThresholdForwarded(s: BarrierState, dpid: Dpid, f: Frame, now: real, clean: bool)
    requires f.ethType != ETH_TYPE_LLDP
    requires Reintegration(s.quarantine, s.pending, f.src, now, clean).allowed
    requires Tick(s.packetCounts, s.startTime, now, (dpid, f.src)).count <= DETECTION_THRESHOLD
    ensures var o := Step(s, dpid, f, now, clean);
            && f.src !in o.next.quarantine
            && o.next.quarantine == Reintegration(s.quarantine, s.pending, f.src, now, clean).table
            && o.next.macToPort == s.macToPort[(dpid, f.src) := f.inPort]
            && o.sent == L2Forward(dpid, f, o.next.macToPort, FORWARD_IDLE)
  {
  }

  /** One input event of the handler. */
  datatype Input = Input(dpid: Dpid, frame: Frame, now: real, clean: bool)

  function Run(s: BarrierState, ins: seq<Input>): BarrierState
    decreases |ins|
  {
    if ins == [] then s
    else Run(Step(s, ins[0].dpid, ins[0].frame, ins[0].now, ins[0].clean).next, ins[1..])
  }

  /** The verification queue stays inside the quarantine table on every run. */
  lemma {:induction false} RunKeepsQueueInTable(s: BarrierState, ins: seq<Input>)
    requires Valid(s)
    ensures Valid(Run(s, ins))
    decreases |ins|
  {
    if ins != [] {
      RunKeepsQueueInTable(Step(s, ins[0].dpid, ins[0].frame, ins[0].now, ins[0].clean).next, ins[1..]);
    }
  }

  /** An input the detector counts under `k`: a non-LLDP frame from switch `k.0`
      whose source MAC is `k.1`. */
  predicate Counted(x: Input, k: Key)
  {
    x.frame.ethType != ETH_TYPE_LLDP && (x.dpid, x.frame.src) == k
  }

  /** How many inputs of `ins` are counted under `k`. */
  function Hits(ins: seq<Input>, k: Key): (n: nat)
    ensures n <= |ins|
    decreases |ins|
  {
    if ins == [] then 0 else (if Counted(ins[0], k) then 1 else 0) + Hits(ins[1..], k)
  }

  /** `t` agrees with `s` on everything about MAC `src`: the window start, its
      quarantine entry and queue membership, its counts and its learned ports. */
  ghost predicate SameFor(s: BarrierState, t: BarrierState, src: Mac)
  {
    && t.startTime == s.startTime
    && (src in t.quarantine <==> src in s.quarantine)
    && (src in s.quarantine ==> t.quarantine[src] == s.quarantine[src])
    && (src in t.pending <==> src in s.pending)
    && (forall d :: CountOf(t.packetCounts, (d, src)) == CountOf(s.packetCounts, (d, src)))
    && (forall d :: (d, src) in t.macToPort <==> (d, src) in s.macToPort)
    && (forall d | (d, src) in s.macToPort :: t.macToPort[(d, src)] == s.macToPort[(d, src)])
  }

  /** Inside the window, a frame from another source (or an LLDP frame) changes
      nothing about `src`. */
  lemma StepSparesOtherSource(s: BarrierState, x: Input, src: Mac)
    requires !Expired(s.startTime, x.now)
    requires x.frame.ethType == ETH_TYPE_LLDP || x.frame.src != src
    ensures SameFor(s, Step(s, x.dpid, x.frame, x.now, x.clean).next, src)
  {
  }

  /** Inside the window, a counted frame of an unquarantined source at or below the
      threshold raises its count by one and leaves it unquarantined. */
  lemma StepCountsSource(s: BarrierState, x: Input, k: Key)
    requires Counted(x, k) && k.1 !in s.quarantine && !Expired(s.startTime, x.now)
    requires CountOf(s.packetCounts, k) + 1 <= DETECTION_THRESHOLD
    ensures var t := Step(s, x.dpid, x.frame, x.now, x.clean).next;
            && t.startTime == s.startTime && k.1 !in t.quarantine
            && CountOf(t.packetCounts, k) == CountOf(s.packetCounts, k) + 1
  {
  }

  /** Inside the window, the counted frame that takes an unquarantined source over the
      threshold quarantines it until that frame's time + RECOVERY_TIME. */
  lemma StepIsolatesSource(s: BarrierState, x: Input, k: Key)
    requires Counted(x, k) && k.1 !in s.quarantine && !Expired(s.startTime, x.now)
    requires CountOf(s.packetCounts, k) + 1 > DETECTION_THRESHOLD
    ensures var t := Step(s, x.dpid, x.frame, x.now, x.clean).next;
            && t.startTime == s.startTime && k.1 in t.quarantine
            && t.quarantine[k.1] == x.now + RECOVERY_TIME as real
  {
  }

  /** Counting hits over a prefix that starts with the first input. */
  lemma HitsPrefix(ins: seq<Input>, k: Key, j: nat)
    requires j < |ins|
    ensures Hits(ins[..j + 1], k) == (if Counted(ins[0], k) then 1 else 0) + Hits(ins[1..][..j], k)
  {
    assert ins[..j + 1][1..] == ins[1..][..j];
  }

  /** Inside one window, a quarantined source whose release time lies beyond the
      window's end stays quarantined with the same release time, whatever other
      traffic arrives: each of its own frames is refused and changes nothing, so it
      is neither counted nor learned. */
  lemma {:induction false} QuarantinedWithinWindow(s: BarrierState, ins: seq<Input>, src: Mac)
    requires src in s.quarantine && s.quarantine[src] >= s.startTime + 1.0
    requires forall i :: 0 <= i < |ins| ==> !Expired(s.startTime, ins[i].now)
    ensures SameFor(s, Run(s, ins), src)
    decreases |ins|
  {
    if ins != [] {
      var x := ins[0];
      var o := Step(s, x.dpid, x.frame, x.now, x.clean);
      if x.frame.ethType != ETH_TYPE_LLDP && x.frame.src == src {
        assert o == Outcome(s, []);
      } else {
        StepSparesOtherSource(s, x, src);
      }
      QuarantinedWithinWindow(o.next, ins[1..], src);
    }
  }

  /** Inside the window, one frame leaves an unquarantined source unquarantined when it
      does not take that source's count on its switch over the threshold: the window
      start is kept and the source's count goes up by one on the frame's switch exactly
      when the frame is counted there, and stays put on every other switch. */
  lemma StepCountsEverySwitch(s: BarrierState, x: Input, src: Mac)
    requires src !in s.quarantine && !Expired(s.startTime, x.now)
    requires Counted(x, (x.dpid, src)) ==> CountOf(s.packetCounts, (x.dpid, src)) + 1 <= DETECTION_THRESHOLD
    ensures var t := Step(s, x.dpid, x.frame, x.now, x.clean).next;
            && t.startTime == s.startTime && src !in t.quarantine
            && forall d :: CountOf(t.packetCounts, (d, src)) == CountOf(s.packetCounts, (d, src)) + (if Counted(x, (d, src)) then 1 else 0)
  {
    if Counted(x, (x.dpid, src)) {
      StepCountsSource(s, x, (x.dpid, src));
    } else {
      StepSparesOtherSource(s, x, src);
    }
  }

  /** Hits of a non-empty run, split at its first input, for every switch. */
  lemma HitsFirst(ins: seq<Input>, src: Mac)
    requires ins != []
    ensures forall d :: Hits(ins, (d, src)) == (if Counted(ins[0], (d, src)) then 1 else 0) + Hits(ins[1..], (d, src))
  {
  }

  /** Any traffic inside one window, from any switches: while the source's count on
      every switch stays at or below the threshold, the source is never isolated and
      each of its per-switch counts goes up by exactly the frames counted there. */
  lemma {:induction false} BelowThresholdNeverIsolated(s: BarrierState, ins: seq<Input>, src: Mac)
    requires src !in s.quarantine
    requires forall i :: 0 <= i < |ins| ==> !Expired(s.startTime, ins[i].now)
    requires forall d :: CountOf(s.packetCounts, (d, src)) + Hits(ins, (d, src)) <= DETECTION_THRESHOLD
    ensures var r := Run(s, ins);
            && r.startTime == s.startTime && src !in r.quarantine
            && forall d :: CountOf(r.packetCounts, (d, src)) == CountOf(s.packetCounts, (d, src)) + Hits(ins, (d, src))
    decreases |ins|
  {
    if ins != [] {
      var x := ins[0];
      var s' := Step(s, x.dpid, x.frame, x.now, x.clean).next;
      HitsFirst(ins, src);
      StepCountsEverySwitch(s, x, src);
      BelowThresholdNeverIsolated(s', ins[1..], src);
    }
  }

  /** Input `j` of `ins` is the first at which the source's count on some switch passes
      the threshold: up to it every per-switch count is at or below the threshold, and
      it is counted on its own switch, taking that count to exactly threshold + 1. */
  ghost predicate FirstOverflow(s: BarrierState, ins: seq<Input>, src: Mac, j: int)
  {
    && 0 <= j < |ins| && Counted(ins[j], (ins[j].dpid, src))
    && CountOf(s.packetCounts, (ins[j].dpid, src)) + Hits(ins[..j + 1], (ins[j].dpid, src)) == DETECTION_THRESHOLD + 1
    && forall d :: CountOf(s.packetCounts, (d, src)) + Hits(ins[..j], (d, src)) <= DETECTION_THRESHOLD
  }

  /** Any traffic inside one window, from any switches, mixed with other sources and
      LLDP: once the source's count on some switch would pass the threshold, the source
      ends the run quarantined, by the first input that takes a count over, with release
      time that input's time + RECOVERY_TIME; the window is not restarted. */
  lemma {:induction false} FloodIsolatesWithinWindow(s: BarrierState, ins: seq<Input>, src: Mac)
    requires src !in s.quarantine
    requires forall d :: CountOf(s.packetCounts, (d, src)) <= DETECTION_THRESHOLD
    requires forall i :: 0 <= i < |ins| ==> s.startTime <= ins[i].now && !Expired(s.startTime, ins[i].now)
    requires exists d :: CountOf(s.packetCounts, (d, src)) + Hits(ins, (d, src)) > DETECTION_THRESHOLD
    ensures var r := Run(s, ins);
            && r.startTime == s.startTime && src in r.quarantine
            && exists j :: FirstOverflow(s, ins, src, j) && r.quarantine[src] == ins[j].now + RECOVERY_TIME as real
    decreases |ins|, 1
  {
    var x := ins[0];
    if Counted(x, (x.dpid, src)) && CountOf(s.packetCounts, (x.dpid, src)) + 1 > DETECTION_THRESHOLD {
      FloodIsolatedByFirst(s, ins, src);
    } else {
      FloodIsolatedLater(s, ins, src);
    }
  }

  /** The first input is the one that takes the source over the threshold. */
  lemma FloodIsolatedByFirst(s: BarrierState, ins: seq<Input>, src: Mac)
    requires src !in s.quarantine && ins != []
    requires forall d :: CountOf(s.packetCounts, (d, src)) <= DETECTION_THRESHOLD
    requires forall i :: 0 <= i < |ins| ==> s.startTime <= ins[i].now && !Expired(s.startTime, ins[i].now)
    requires Counted(ins[0], (ins[0].dpid, src)) && CountOf(s.packetCounts, (ins[0].dpid, src)) + 1 > DETECTION_THRESHOLD
    ensures var r := Run(s, ins);
            && r.startTime == s.startTime && src in r.quarantine
            && FirstOverflow(s, ins, src, 0) && r.quarantine[src] == ins[0].now + RECOVERY_TIME as real
  {
    var x := ins[0];
    var s' := Step(s, x.dpid, x.frame, x.now, x.clean).next;
    assert Run(s, ins) == Run(s', ins[1..]);
    StepIsolatesSource(s, x, (x.dpid, src));
    QuarantinedWithinWindow(s', ins[1..], src);
    HitsPrefix(ins, (x.dpid, src), 0);
    assert ins[..0] == [];
  }

  /** The first input leaves every count of the source at or below the threshold; a
      later one isolates it. */
  lemma {:induction false} FloodIsolatedLater(s: BarrierState, ins: seq<Input>, src: Mac)
    requires src !in s.quarantine && ins != []
    requires forall d :: CountOf(s.packetCounts, (d, src)) <= DETECTION_THRESHOLD
    requires forall i :: 0 <= i < |ins| ==> s.startTime <= ins[i].now && !Expired(s.startTime, ins[i].now)
    requires exists d :: CountOf(s.packetCounts, (d, src)) + Hits(ins, (d, src)) > DETECTION_THRESHOLD
    requires !(Counted(ins[0], (ins[0].dpid, src)) && CountOf(s.packetCounts, (ins[0].dpid, src)) + 1 > DETECTION_THRESHOLD)
    ensures var r := Run(s, ins);
            && r.startTime == s.startTime && src in r.quarantine
            && exists j :: FirstOverflow(s, ins, src, j) && r.quarantine[src] == ins[j].now + RECOVERY_TIME as real
    decreases |ins|, 0
  {
    var x := ins[0];
    var rest := ins[1..];
    var s' := Step(s, x.dpid, x.frame, x.now, x.clean).next;
    assert Run(s, ins) == Run(s', rest);
    HitsFirst(ins, src);
    StepCountsEverySwitch(s, x, src);
    var d0 :| CountOf(s.packetCounts, (d0, src)) + Hits(ins, (d0, src)) > DETECTION_THRESHOLD;
    assert rest != [] && CountOf(s'.packetCounts, (d0, src)) + Hits(rest, (d0, src)) > DETECTION_THRESHOLD;
    FloodIsolatesWithinWindow(s', rest, src);
    var r := Run(s', rest);
    var j' :| FirstOverflow(s', rest, src, j') && r.quarantine[src] == rest[j'].now + RECOVERY_TIME as real;
    FirstOverflowShifts(s, s', ins, src, j');
  }

  /** A first overflow at `j` of the run after its first input is one at `j + 1` of the
      whole run, when that first input took no count over. */
  lemma FirstOverflowShifts(s: BarrierState, s': BarrierState, ins: seq<Input>, src: Mac, j: int)
    requires ins != []
    requires forall d :: CountOf(s'.packetCounts, (d, src)) == CountOf(s.packetCounts, (d, src)) + (if Counted(ins[0], (d, src)) then 1 else 0)
    requires FirstOverflow(s', ins[1..], src, j)
    ensures FirstOverflow(s, ins, src, j + 1)
  {
    var e := ins[j + 1].dpid;
    assert ins[1..][j] == ins[j + 1];
    HitsPrefix(ins, (e, src), j + 1);
    forall d ensures CountOf(s.packetCounts, (d, src)) + Hits(ins[..j + 1], (d, src)) <= DETECTION_THRESHOLD {
      HitsPrefix(ins, (d, src), j);
    }
  }

  /** Recovery of an isolated source: once its timer has run out, the first frame only
      queues it for verification and is dropped; a later frame with a successful
      trial releases it from the table and the queue, and that frame is learned and
      forwarded again (its window has been reopened). */
  lemma RecoveryTakesTwoChecks(s: BarrierState, dpid: Dpid, f: Frame, t1: real, t2: real, clean1: bool)
    requires f.ethType != ETH_TYPE_LLDP
    requires f.src in s.quarantine && f.src !in s.pending
    requires s.quarantine[f.src] < t1 <= t2
    requires Expired(s.startTime, t1)
    ensures var o1 := Step(s, dpid, f, t1, clean1);
            && o1.sent == [] && f.src in o1.next.pending && f.src in o1.next.quarantine
            && var o2 := Step(o1.next, dpid, f, t2, true);
               && f.src !in o2.next.quarantine && f.src !in o2.next.pending
               && CountOf(o2.next.packetCounts, (dpid, f.src)) == 1
               && o2.next.macToPort == s.macToPort[(dpid, f.src) := f.inPort]
  {
    var o1 := Step(s, dpid, f, t1, clean1);
    assert o1.next.startTime == s.startTime;
    assert o1.next.macToPort == s.macToPort;
  }

  /** The Ryu application object of myco_barrier_logic.py; every `send_msg` appends
      to `outbox`. */
  class MycoBarrierLogic {
    var macToPort: map<Key, PortNo>
    var packetCounts: map<Key, nat>
    var quarantineList: Table
    var vpaVerificationQueue: set<Mac>
    var startTime: real
    var outbox: seq<Message>

    function Snapshot(): BarrierState
      reads this
    {
      BarrierState(macToPort, packetCounts, quarantineList, vpaVerificationQueue, startTime)
    }

    constructor (now: real)
      ensures Snapshot() == BarrierState(map[], map[], map[], {}, now) && Valid(Snapshot())
      ensures outbox == []
    {
      macToPort, packetCounts := map[], map[];
      quarantineList, vpaVerificationQueue := map[], {};
      startTime := now;
      outbox := [];
    }

    /** `switch_features_handler`: the table-miss rule. */
    method SwitchFeatures(dpid: Dpid)
      modifies this
      ensures Snapshot() == old(Snapshot()) && outbox == old(outbox) + [TableMiss(dpid)]
    {
      outbox := outbox + [TableMiss(dpid)];
    }

    method IsolateNode(dpid: Dpid, srcMac: Mac, now: real)
      modifies this
      ensures var o := Isolate(old(Snapshot()), dpid, srcMac, now);
              Snapshot() == o.next && outbox == old(outbox) + o.sent
    {
      if srcMac in quarantineList {
        return;
      }
      var releaseTime := now + RECOVERY_TIME as real;
      quarantineList := quarantineList[srcMac := releaseTime];
      outbox := outbox + [FlowAdd(dpid, 0, 100, MatchEthSrc(srcMac), [], 0, RECOVERY_TIME, FlowBuffer(None))];
    }

    method CheckReintegration(srcMac: Mac, now: real, clean: bool) returns (allowed: bool)
      modifies this
      ensures var g := Reintegration(old(quarantineList), old(vpaVerificationQueue), srcMac, now, clean);
              allowed == g.allowed && quarantineList == g.table && vpaVerificationQueue == g.pending
      ensures macToPort == old(macToPort) && packetCounts == old(packetCounts)
      ensures startTime == old(startTime) && outbox == old(outbox)
    {
      if srcMac !in quarantineList {
        return true;
      }
      var releaseTime := quarantineList[srcMac];
      if now > releaseTime {
        if srcMac !in vpaVerificationQueue {
          vpaVerificationQueue := vpaVerificationQueue + {srcMac};
          return false;
        }
        if clean {
          quarantineList := quarantineList - {srcMac};
          vpaVerificationQueue := vpaVerificationQueue - {srcMac};
          return true;
        } else {
          quarantineList := quarantineList[srcMac := quarantineList[srcMac] + PENALTY];
          return false;
        }
      }
      return false;
    }

    method PacketIn(dpid: Dpid, f: Frame, now: real, clean: bool)
      modifies this
      ensures var o := Step(old(Snapshot()), dpid, f, now, clean);
              Snapshot() == o.next && outbox == old(outbox) + o.sent
    {
      if f.ethType == ETH_TYPE_LLDP {
        return;
      }
      // step 1: quarantine and verification status
      var allowed := CheckReintegration(f.src, now, clean);
      if !allowed {
        return;
      }
      // step 2: rate limiting
      if now - startTime > 1.0 {
        packetCounts := map[];
        startTime := now;
      }
      var key := (dpid, f.src);
      packetCounts := packetCounts[key := CountOf(packetCounts, key) + 1];
      if packetCounts[key] > DETECTION_THRESHOLD {
        IsolateNode(dpid, f.src, now);
        return;
      }
      ForwardFrame(dpid, f);
    }

    /** Step 3, lines 156-181: standard forwarding. */
    method ForwardFrame(dpid: Dpid, f: Frame)
      modifies this
      ensures var o := Forwarding(old(Snapshot()), dpid, f);
              Snapshot() == o.next && outbox == old(outbox) + o.sent
    {
      macToPort := macToPort[(dpid, f.src) := f.inPort];
      var outPort := if (dpid, f.dst) in macToPort then macToPort[(dpid, f.dst)] else OFPP_FLOOD;
      var actions := [Out(outPort)];
      if outPort != OFPP_FLOOD {
        var m := MatchL2(f.inPort, f.src, f.dst);
        if f.bufferId != OFP_NO_BUFFER {
          outbox := outbox + [FlowAdd(dpid, 0, 1, m, actions, FORWARD_IDLE, 0, FlowBuffer(Some(f.bufferId)))];
          return;
        } else {
          outbox := outbox + [FlowAdd(dpid, 0, 1, m, actions, FORWARD_IDLE, 0, FlowBuffer(None))];
        }
      }
      var data := if f.bufferId == OFP_NO_BUFFER then FrameData else NoData;
      outbox := outbox + [PacketOut(dpid, f.bufferId, f.inPort, actions, data)];
    }
  }
}
