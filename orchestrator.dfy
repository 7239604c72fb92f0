/** myco_controller_gpt.py (class MycoBarrierController and its REST front end
    MycoRestController): a learning switch that runs one strategy event at a time.
    A POST /myco/event request names a strategy and a target host; an accepted event
    installs the strategy's rules, all tagged with the event's cookie, and ending the
    event deletes every rule carrying that cookie from every known switch. ARP
    requests for the target are meant to be answered with the proxy's MAC (as
    written, the handler raises before it can answer: see `ArpSteeringAsWritten`),
    and echo probes measure control-plane latency. */
module Orchestrator {
  import opened OpenFlow

  const MAX_DURATION: real := 120.0
  const DEFAULT_DURATION: real := 8.0
  const SCOUT_PRIORITY: nat := 300
  const BOX_PRIORITY: nat := 320
  const SWAP_PRIORITY: nat := 340
  const L2_PRIORITY: nat := 10
  const L2_IDLE: nat := 30

  // ---------------- Host and proxy mapping ----------------

  /** One entry of the mapping's "hosts" list. */
  datatype HostEntry = HostEntry(ip: Ip, mac: Mac, dpid: Dpid)
  /** One entry of the mapping's "proxies" list: a sandbox/proxy host attached to
      port `port` of edge switch `dpid`. */
  datatype ProxyEntry = ProxyEntry(ip: Ip, mac: Mac, port: PortNo, dpid: Dpid)

  /** `host_by_ip`: every listed host by its IP; a later entry for the same IP
      replaces an earlier one. */
  function HostIndex(hosts: seq<HostEntry>): (idx: map<Ip, HostEntry>)
    ensures idx.Keys == set h | h in hosts :: h.ip
    ensures forall ip | ip in idx :: idx[ip] in hosts && idx[ip].ip == ip
    decreases |hosts|
  {
    if hosts == [] then map[]
    else
      var h := hosts[|hosts| - 1];
      HostIndex(hosts[..|hosts| - 1])[h.ip := h]
  }

  /** The entry `host_by_ip` keeps for an IP is the LAST host listed with it. */
  lemma {:induction false} LastHostWins(hosts: seq<HostEntry>, i: int)
    requires 0 <= i < |hosts|
    requires forall j :: i < j < |hosts| ==> hosts[j].ip != hosts[i].ip
    ensures HostIndex(hosts)[hosts[i].ip] == hosts[i]
    decreases |hosts|
  {
    if i < |hosts| - 1 {
      var init := hosts[..|hosts| - 1];
      LastHostWins(init, i);
      assert hosts[|hosts| - 1].ip != hosts[i].ip;
    }
  }

  /** The proxies listed for switch `d`, in listing order. */
  function ProxiesAt(ps: seq<ProxyEntry>, d: Dpid): (r: seq<ProxyEntry>)
    ensures forall p :: p in r <==> p in ps && p.dpid == d
    decreases |ps|
  {
    if ps == [] then []
    else
      var p := ps[|ps| - 1];
      ProxiesAt(ps[..|ps| - 1], d) + (if p.dpid == d then [p] else [])
  }

  /** `proxies_by_dpid`, built by `setdefault(dpid, []).append(p)` over the list. */
  function ProxyIndex(ps: seq<ProxyEntry>): (idx: map<Dpid, seq<ProxyEntry>>)
    // every listed proxy is filed under its own switch, and nothing else is filed
    ensures forall p | p in ps :: p.dpid in idx && p in idx[p.dpid]
    ensures forall d | d in idx :: idx[d] != [] && forall p | p in idx[d] :: p in ps && p.dpid == d
    decreases |ps|
  {
    if ps == [] then map[]
    else
      var idx := ProxyIndex(ps[..|ps| - 1]);
      var p := ps[|ps| - 1];
      idx[p.dpid := (if p.dpid in idx then idx[p.dpid] else []) + [p]]
  }

  /** The index groups the proxies by switch: a switch has an entry exactly when
      some proxy is listed for it, and the entry lists them in order. */
  lemma {:induction false} ProxyIndexGroups(ps: seq<ProxyEntry>, d: Dpid)
    ensures d in ProxyIndex(ps) <==> ProxiesAt(ps, d) != []
    ensures d in ProxyIndex(ps) ==> ProxyIndex(ps)[d] == ProxiesAt(ps, d)
    decreases |ps|
  {
    if ps != [] {
      ProxyIndexGroups(ps[..|ps| - 1], d);
    }
  }

  /** The first proxy listed for switch `d` in the mapping heads its group. */
  lemma {:induction false} FirstListedHeadsGroup(ps: seq<ProxyEntry>, d: Dpid, i: int)
    requires 0 <= i < |ps| && ps[i].dpid == d
    requires forall j :: 0 <= j < i ==> ps[j].dpid != d
    ensures ProxiesAt(ps, d) != [] && ProxiesAt(ps, d)[0] == ps[i]
    decreases |ps|
  {
    var init := ps[..|ps| - 1];
    if i == |ps| - 1 {
      assert forall p | p in init :: p.dpid != d;
    } else {
      FirstListedHeadsGroup(init, d, i);
    }
  }

  /** The loop of `__init__` that builds `host_by_ip`. */
  method BuildHostIndex(hosts: seq<HostEntry>) returns (idx: map<Ip, HostEntry>)
    ensures idx == HostIndex(hosts)
  {
    idx := map[];
    for i := 0 to |hosts|
      invariant idx == HostIndex(hosts[..i])
    {
      assert hosts[..i + 1][..i] == hosts[..i];
      idx := idx[hosts[i].ip := hosts[i]];
    }
    assert hosts[..|hosts|] == hosts;
  }

  /** The loop of `__init__` that builds `proxies_by_dpid`. */
  method BuildProxyIndex(ps: seq<ProxyEntry>) returns (idx: map<Dpid, seq<ProxyEntry>>)
    ensures idx == ProxyIndex(ps)
  {
    idx := map[];
    for i := 0 to |ps|
      invariant idx == ProxyIndex(ps[..i])
    {
      assert ps[..i + 1][..i] == ps[..i];
      var p := ps[i];
      var group := if p.dpid in idx then idx[p.dpid] else [];
      idx := idx[p.dpid := group + [p]];
    }
    assert ps[..|ps|] == ps;
  }

  /** `proxies_by_dpid.get(dpid, [])`. */
  function Candidates(proxies: map<Dpid, seq<ProxyEntry>>, d: Dpid): seq<ProxyEntry>
  {
    if d in proxies then proxies[d] else []
  }

  // ---------------- Requests ----------------

  datatype Strategy = MycoScout | MycoBox | MycoSwap

  /** The strategy's name on the wire. */
  function StrategyName(s: Strategy): string
  {
    match s
    case MycoScout => "myco_scout"
    case MycoBox => "myco_box"
    case MycoSwap => "myco_swap"
  }

  /** `strategy in ("myco_scout", "myco_box", "myco_swap")`. */
  function ParseStrategy(text: string): (r: Option<Strategy>)
    ensures r.Some? <==> text in {"myco_scout", "myco_box", "myco_swap"}
    ensures r.Some? ==> StrategyName(r.value) == text
  {
    if text == "myco_scout" then Some(MycoScout)
    else if text == "myco_box" then Some(MycoBox)
    else if text == "myco_swap" then Some(MycoSwap)
    else None
  }

  /** Every strategy name is read back as that strategy. */
  lemma ParseNameRoundTrip(s: Strategy)
    ensures ParseStrategy(StrategyName(s)) == Some(s)
  {
  }

  /** The characters Python's `str.strip()` removes: the Unicode whitespace. */
  predicate IsSpace(c: char)
  {
    c == ' ' || ('\t' <= c <= '\r') || ('\U{1C}' <= c <= '\U{1F}') || c == '\U{85}' || c == '\U{A0}'
    || c == '\U{1680}' || ('\U{2000}' <= c <= '\U{200A}') || c == '\U{2028}' || c == '\U{2029}'
    || c == '\U{202F}' || c == '\U{205F}' || c == '\U{3000}'
  }

  function StripLeft(s: string): (r: string)
    ensures |r| <= |s| && r == s[|s| - |r|..]
    ensures forall i :: 0 <= i < |s| - |r| ==> IsSpace(s[i])
    ensures r == [] || !IsSpace(r[0])
    decreases |s|
  {
    if s != [] && IsSpace(s[0]) then StripLeft(s[1..]) else s
  }

  function StripRight(s: string): (r: string)
    ensures |r| <= |s| && r == s[..|r|]
    ensures forall i :: |r| <= i < |s| ==> IsSpace(s[i])
    ensures r == [] || !IsSpace(r[|r| - 1])
    decreases |s|
  {
    if s != [] && IsSpace(s[|s| - 1]) then StripRight(s[..|s| - 1]) else s
  }

  /** `str.strip()`: a slice of `s` that neither starts nor ends with whitespace;
      `StripLeft` and `StripRight` say that only whitespace is cut on either side. */
  function Strip(s: string): (r: string)
    ensures r == [] || (!IsSpace(r[0]) && !IsSpace(r[|r| - 1]))
    ensures |r| <= |StripLeft(s)| <= |s| && r == s[|s| - |StripLeft(s)|..][..|r|]
  {
    StripRight(StripLeft(s))
  }

  /** StripLeft removes a whitespace prefix and stops at the first other character. */
  lemma {:induction false} StripLeftPrefix(pre: string, rest: string)
    requires forall i :: 0 <= i < |pre| ==> IsSpace(pre[i])
    requires rest == [] || !IsSpace(rest[0])
    ensures StripLeft(pre + rest) == rest
    decreases |pre|
  {
    if pre == [] {
      assert pre + rest == rest;
    } else {
      assert (pre + rest)[1..] == pre[1..] + rest;
      StripLeftPrefix(pre[1..], rest);
    }
  }

  /** StripRight removes a whitespace suffix and stops at the last other character. */
  lemma {:induction false} StripRightSuffix(rest: string, post: string)
    requires forall i :: 0 <= i < |post| ==> IsSpace(post[i])
    requires rest == [] || !IsSpace(rest[|rest| - 1])
    ensures StripRight(rest + post) == rest
    decreases |post|
  {
    if post == [] {
      assert rest + post == rest;
    } else {
      var n := |post| - 1;
      assert (rest + post)[..|rest + post| - 1] == rest + post[..n];
      StripRightSuffix(rest, post[..n]);
    }
  }

  /** Strip removes exactly the surrounding whitespace: padding a text that neither
      starts nor ends with whitespace gives the text back. */
  lemma StripPadding(pre: string, core: string, post: string)
    requires forall i :: 0 <= i < |pre| ==> IsSpace(pre[i])
    requires forall i :: 0 <= i < |post| ==> IsSpace(post[i])
    requires core == [] || (!IsSpace(core[0]) && !IsSpace(core[|core| - 1]))
    ensures Strip(pre + core + post) == core
  {
    assert pre + core + post == pre + (core + post);
    if core == [] {
      assert core + post == post;
      StripLeftPrefix(pre + post, []);
      assert pre + post + [] == pre + (core + post);
    } else {
      assert (core + post)[0] == core[0];
      StripLeftPrefix(pre, core + post);
      StripRightSuffix(core, post);
    }
  }

  /** A blank target_ip (empty or all whitespace) is exactly the one Strip empties. */
  lemma {:induction false} StripEmptyIffBlank(s: string)
    ensures Strip(s) == [] <==> forall i :: 0 <= i < |s| ==> IsSpace(s[i])
  {
    if Strip(s) == [] {
      assert StripLeft(s) == [];
    }
  }

  /** `str.lower()` on ASCII letters. */
  function LowerChar(c: char): char
  {
    if 'A' <= c <= 'Z' then (c as int + 32) as char else c
  }

  function Lower(s: string): (r: string)
    ensures |r| == |s|
    // no ASCII capital is left; every other character is kept
    ensures forall i :: 0 <= i < |s| ==> !('A' <= r[i] <= 'Z')
    ensures forall i :: 0 <= i < |s| && !('A' <= s[i] <= 'Z') ==> r[i] == s[i]
    ensures forall i :: 0 <= i < |s| && 'A' <= s[i] <= 'Z' ==> r[i] as int == s[i] as int + 32
  {
    seq(|s|, i requires 0 <= i < |s| => LowerChar(s[i]))
  }

  /** The JSON body of POST /myco/event; a missing "duration_s" is `None`. */
  datatype Request = Request(strategy: string, targetIp: string, durationS: Option<real>)

  function Duration(r: Request): real
  {
    if r.durationS.Some? then r.durationS.value else DEFAULT_DURATION
  }

  /** The reasons a request is turned away; each becomes an HTTP 400. */
  datatype Refusal =
    | InvalidStrategy
    | MissingTargetIp
    | InvalidDuration
    | UnknownTarget(ip: Ip)
    | EventActive
    | NoProxy(dpid: Dpid)

  datatype Verdict<T> = Ok(value: T) | Refused(why: Refusal)

  /** A request that passed `post_event`'s checks. */
  datatype Checked = Checked(strategy: Strategy, targetIp: Ip, durationS: real)

  /** The checks of `post_event` (lines 75-84), in their order. */
  function Validate(r: Request): (v: Verdict<Checked>)
    ensures v.Ok? <==>
              && ParseStrategy(Lower(Strip(r.strategy))).Some?
              && Strip(r.targetIp) != []
              && 0.0 < Duration(r) <= MAX_DURATION
    ensures v.Ok? ==>
              && StrategyName(v.value.strategy) == Lower(Strip(r.strategy))
              && v.value.targetIp == Strip(r.targetIp)
              && v.value.durationS == Duration(r)
    ensures ParseStrategy(Lower(Strip(r.strategy))).None? ==> v == Refused(InvalidStrategy)
    ensures ParseStrategy(Lower(Strip(r.strategy))).Some? && Strip(r.targetIp) == [] ==> v == Refused(MissingTargetIp)
    ensures ParseStrategy(Lower(Strip(r.strategy))).Some? && Strip(r.targetIp) != [] && !(0.0 < Duration(r) <= MAX_DURATION) ==>
              v == Refused(InvalidDuration)
    ensures v.Refused? ==> v.why in {InvalidStrategy, MissingTargetIp, InvalidDuration}
  {
    var strategy := ParseStrategy(Lower(Strip(r.strategy)));
    var targetIp := Strip(r.targetIp);
    var duration := Duration(r);
    if strategy.None? then Refused(InvalidStrategy)
    else if targetIp == [] then Refused(MissingTargetIp)
    else if duration <= 0.0 || duration > MAX_DURATION then Refused(InvalidDuration)
    else Ok(Checked(strategy.value, targetIp, duration))
  }

  /** A character that lower-cases to an ASCII letter is not whitespace. */
  lemma LetterNotSpace(c: char)
    requires 'a' <= LowerChar(c) <= 'z'
    ensures !IsSpace(c)
  {
  }

  /** A strategy name written in any letter case loses only its padding to `strip()`. */
  lemma PaddedNameStrips(s: Strategy, pre: string, text: string, post: string)
    requires forall i :: 0 <= i < |pre| ==> IsSpace(pre[i])
    requires forall i :: 0 <= i < |post| ==> IsSpace(post[i])
    requires Lower(text) == StrategyName(s)
    ensures Strip(pre + text + post) == text
  {
    var name := StrategyName(s);
    assert 'a' <= name[0] <= 'z' && 'a' <= name[|name| - 1] <= 'z';
    assert LowerChar(text[0]) == name[0];
    assert LowerChar(text[|text| - 1]) == name[|name| - 1];
    LetterNotSpace(text[0]);
    LetterNotSpace(text[|text| - 1]);
    StripPadding(pre, text, post);
  }

  /** The name of any strategy, in any letter case and with any surrounding
      whitespace, is accepted as that strategy. */
  lemma PaddedNameAccepted(s: Strategy, pre: string, text: string, post: string, ip: Ip)
    requires forall i :: 0 <= i < |pre| ==> IsSpace(pre[i])
    requires forall i :: 0 <= i < |post| ==> IsSpace(post[i])
    requires Lower(text) == StrategyName(s)
    requires ip != [] && !IsSpace(ip[0]) && !IsSpace(ip[|ip| - 1])
    ensures Validate(Request(pre + text + post, ip, None)) == Ok(Checked(s, ip, DEFAULT_DURATION))
  {
    PaddedNameStrips(s, pre, text, post);
    StripPadding([], ip, []);
    assert [] + ip + [] == ip;
    ParseNameRoundTrip(s);
    var r := Request(pre + text + post, ip, None);
    assert ParseStrategy(Lower(Strip(r.strategy))) == Some(s);
    assert Strip(r.targetIp) == ip;
    assert Duration(r) == DEFAULT_DURATION;
  }

  // ---------------- Events ----------------

  /** `active_event`; `proxy` is absent for myco_scout (whose proxy ip, mac and
      port are all `""`). */
  datatype Event = Event(
    strategy: Strategy,
    targetIp: Ip,
    targetMac: Mac,
    targetDpid: Dpid,
    proxy: Option<ProxyEntry>,
    durationS: real,
    cookie: int)

  /** Only myco_box and myco_swap events carry a proxy. */
  predicate WellFormed(e: Event)
  {
    e.strategy == MycoScout <==> e.proxy.None?
  }

  /** `trigger_event` (lines 297-331): the unknown-target check runs first, then the
      single-event check, then, for myco_box and myco_swap, the proxy lookup, which
      takes the first proxy listed for the target's switch. */
  function Admit(hosts: map<Ip, HostEntry>, proxies: map<Dpid, seq<ProxyEntry>>,
                 active: Option<Event>, c: Checked, cookie: int): (v: Verdict<Event>)
    ensures c.targetIp !in hosts ==> v == Refused(UnknownTarget(c.targetIp))
    ensures c.targetIp in hosts && active.Some? ==> v == Refused(EventActive)
    ensures v.Ok? <==>
              && c.targetIp in hosts && active.None?
              && (c.strategy != MycoScout ==> Candidates(proxies, hosts[c.targetIp].dpid) != [])
    ensures v.Ok? ==>
              var h := hosts[c.targetIp];
              && WellFormed(v.value)
              && v.value.strategy == c.strategy && v.value.targetIp == c.targetIp
              && v.value.targetMac == h.mac && v.value.targetDpid == h.dpid
              && v.value.durationS == c.durationS && v.value.cookie == cookie
              && (c.strategy != MycoScout ==> v.value.proxy == Some(Candidates(proxies, h.dpid)[0]))
  {
    if c.targetIp !in hosts then Refused(UnknownTarget(c.targetIp))
    else if active.Some? then Refused(EventActive)
    else
      var h := hosts[c.targetIp];
      if c.strategy == MycoScout then
        Ok(Event(c.strategy, c.targetIp, h.mac, h.dpid, None, c.durationS, cookie))
      else
        var candidates := Candidates(proxies, h.dpid);
        if candidates == [] then Refused(NoProxy(h.dpid))
        else Ok(Event(c.strategy, c.targetIp, h.mac, h.dpid, Some(candidates[0]), c.durationS, cookie))
  }

  /** Single flight: while an event is active, no request starts another, and the
      active event is never replaced. */
  lemma {:induction false} SingleFlight(hosts: map<Ip, HostEntry>, proxies: map<Dpid, seq<ProxyEntry>>,
                                        e: Event, c: Checked, cookie: int)
    ensures Admit(hosts, proxies, Some(e), c, cookie).Refused?
  {
    var v := Admit(hosts, proxies, Some(e), c, cookie);
    assert v.why == UnknownTarget(c.targetIp) || v.why == EventActive;
  }

  /** Against the mapping the controller was started with, a myco_box or myco_swap
      event uses the proxy listed FIRST for the target's switch. */
  lemma ChosenProxyListedFirst(hosts: seq<HostEntry>, ps: seq<ProxyEntry>, c: Checked, cookie: int, i: int)
    requires c.strategy != MycoScout
    requires 0 <= i < |ps|
    requires Admit(HostIndex(hosts), ProxyIndex(ps), None, c, cookie).Ok?
    requires ps[i].dpid == HostIndex(hosts)[c.targetIp].dpid
    requires forall j :: 0 <= j < i ==> ps[j].dpid != ps[i].dpid
    ensures Admit(HostIndex(hosts), ProxyIndex(ps), None, c, cookie).value.proxy == Some(ps[i])
  {
    ProxyIndexGroups(ps, ps[i].dpid);
    FirstListedHeadsGroup(ps, ps[i].dpid, i);
  }

  // ---------------- Strategy rules ----------------

  /** An IPv4 match (eth_type 0x0800) on the given fields. */
  function IpMatch(inPort: Option<PortNo>, src: Option<Ip>, dst: Option<Ip>): Match
  {
    Match(inPort, Some(ETH_TYPE_IP), None, None, src, dst)
  }

  /** `_flow_with_cookie`: an add with the event cookie and no timeouts (every caller
      leaves `hard_timeout` at its default 0), which that cookie's delete removes. */
  function CookieRule(dpid: Dpid, cookie: int, priority: nat, m: Match, actions: seq<Action>): (r: Message)
    ensures r.FlowAdd? && r.dpid == dpid && r.cookie == cookie
    ensures r.priority == priority && r.flowMatch == m && r.actions == actions
    ensures r.idleTimeout == 0 && r.hardTimeout == 0 && r.bufferId == OFP_NO_BUFFER
    ensures Removes(FlowDelete(dpid, cookie), r)
  {
    FlowAdd(dpid, cookie, priority, m, actions, 0, 0, OFP_NO_BUFFER)
  }

  /** The two scout drops on one switch: IPv4 to the target, then IPv4 from it. */
  function ScoutPair(d: Dpid, ip: Ip, cookie: int): seq<Message>
  {
    [CookieRule(d, cookie, SCOUT_PRIORITY, IpMatch(None, None, Some(ip)), []),
     CookieRule(d, cookie, SCOUT_PRIORITY, IpMatch(None, Some(ip), None), [])]
  }

  /** `_myco_scout_isolate`: on every switch, in registration order, drop IPv4 to the
      target and then IPv4 from it. */
  function ScoutRules(dps: seq<Dpid>, ip: Ip, cookie: int): (rules: seq<Message>)
    ensures |rules| == 2 * |dps|
    decreases |dps|
  {
    if dps == [] then []
    else ScoutRules(dps[..|dps| - 1], ip, cookie) + ScoutPair(dps[|dps| - 1], ip, cookie)
  }

  /** Rules 2i and 2i+1 are the two drops on the i-th registered switch. */
  lemma {:induction false} ScoutRulesAt(dps: seq<Dpid>, ip: Ip, cookie: int, i: nat)
    requires i < |dps|
    ensures ScoutRules(dps, ip, cookie)[2 * i..2 * i + 2] == ScoutPair(dps[i], ip, cookie)
    decreases |dps|
  {
    var init := dps[..|dps| - 1];
    var prev := ScoutRules(init, ip, cookie);
    var rules := ScoutRules(dps, ip, cookie);
    assert rules == prev + ScoutPair(dps[|dps| - 1], ip, cookie);
    if i < |init| {
      ScoutRulesAt(init, ip, cookie, i);
      assert rules[2 * i..2 * i + 2] == prev[2 * i..2 * i + 2];
    } else {
      assert rules[2 * i..2 * i + 2] == rules[|prev|..];
    }
  }

  /** Every scout rule is a drop at priority 300 with the event cookie and no
      timeouts, on a registered switch; rules 2i and 2i+1 drop IPv4 to and from
      the target on the i-th switch. */
  lemma ScoutRulesShape(dps: seq<Dpid>, ip: Ip, cookie: int)
    ensures var rules := ScoutRules(dps, ip, cookie);
            forall i :: 0 <= i < |dps| ==>
              && rules[2 * i] == CookieRule(dps[i], cookie, SCOUT_PRIORITY, IpMatch(None, None, Some(ip)), [])
              && rules[2 * i + 1] == CookieRule(dps[i], cookie, SCOUT_PRIORITY, IpMatch(None, Some(ip), None), [])
    ensures forall m | m in ScoutRules(dps, ip, cookie) ::
              && IsDropRule(m) && m.cookie == cookie && m.priority == SCOUT_PRIORITY && m.dpid in dps
              && m.idleTimeout == 0 && m.hardTimeout == 0
  {
    var rules := ScoutRules(dps, ip, cookie);
    forall i | 0 <= i < |dps|
      ensures rules[2 * i] == ScoutPair(dps[i], ip, cookie)[0]
      ensures rules[2 * i + 1] == ScoutPair(dps[i], ip, cookie)[1]
    {
      ScoutRulesAt(dps, ip, cookie, i);
      assert rules[2 * i] == rules[2 * i..2 * i + 2][0];
      assert rules[2 * i + 1] == rules[2 * i..2 * i + 2][1];
    }
    forall m | m in rules
      ensures && IsDropRule(m) && m.cookie == cookie && m.priority == SCOUT_PRIORITY && m.dpid in dps
              && m.idleTimeout == 0 && m.hardTimeout == 0
    {
      var k :| 0 <= k < |rules| && rules[k] == m;
      var i := k / 2;
      assert i < |dps| && dps[i] in dps;
      if k == 2 * i {
        assert m == ScoutPair(dps[i], ip, cookie)[0];
      } else {
        assert k == 2 * i + 1;
        assert m == ScoutPair(dps[i], ip, cookie)[1];
      }
    }
  }

  /** One more switch adds its two drop rules at the end. */
  lemma ScoutRulesSnoc(dps: seq<Dpid>, d: Dpid, ip: Ip, cookie: int)
    ensures ScoutRules(dps + [d], ip, cookie) == ScoutRules(dps, ip, cookie) + ScoutPair(d, ip, cookie)
  {
    assert (dps + [d])[..|dps|] == dps;
  }

  /** Rewrite IPv4 traffic for the target to the proxy and send it out the proxy's port. */
  function RedirectActions(p: ProxyEntry): seq<Action>
  {
    [SetIpv4Dst(p.ip), SetEthDst(p.mac), Out(p.port)]
  }

  /** `_myco_box_quarantine`: one redirect rule on the target's switch (nothing for
      the proxy's own traffic); nothing at all if that switch is not registered. */
  function BoxRules(e: Event, dps: seq<Dpid>): (rules: seq<Message>)
    requires e.proxy.Some?
    ensures e.targetDpid !in dps <==> rules == []
    ensures forall m | m in rules ::
              && m.FlowAdd? && m.dpid == e.targetDpid && m.cookie == e.cookie
              && m.idleTimeout == 0 && m.hardTimeout == 0
  {
    if e.targetDpid !in dps then []
    else [CookieRule(e.targetDpid, e.cookie, BOX_PRIORITY, IpMatch(None, None, Some(e.targetIp)), RedirectActions(e.proxy.value))]
  }

  /** `_myco_swap_replace`: on the target's switch, the inbound redirect and an
      outbound rule that gives the proxy's replies the target's identity and hands
      them to the controller; nothing if that switch is not registered. */
  function SwapRules(e: Event, dps: seq<Dpid>): (rules: seq<Message>)
    requires e.proxy.Some?
    ensures e.targetDpid !in dps <==> rules == []
    ensures forall m | m in rules ::
              && m.FlowAdd? && m.dpid == e.targetDpid && m.cookie == e.cookie
              && m.idleTimeout == 0 && m.hardTimeout == 0
  {
    if e.targetDpid !in dps then []
    else
      var p := e.proxy.value;
      [CookieRule(e.targetDpid, e.cookie, SWAP_PRIORITY, IpMatch(None, None, Some(e.targetIp)), RedirectActions(p)),
       CookieRule(e.targetDpid, e.cookie, SWAP_PRIORITY, IpMatch(Some(p.port), Some(p.ip), None),
                  [SetIpv4Src(e.targetIp), SetEthSrc(e.targetMac), ToController])]
  }

  /** `_apply_strategy_start`. */
  function StartRules(e: Event, dps: seq<Dpid>): (rules: seq<Message>)
    requires WellFormed(e)
    ensures forall m | m in rules :: m.FlowAdd? && m.cookie == e.cookie && m.dpid in dps && m.hardTimeout == 0
    ensures e.strategy != MycoScout ==> forall m | m in rules :: m.dpid == e.targetDpid
  {
    match e.strategy
    case MycoScout => ScoutRulesShape(dps, e.targetIp, e.cookie); ScoutRules(dps, e.targetIp, e.cookie)
    case MycoBox => BoxRules(e, dps)
    case MycoSwap => SwapRules(e, dps)
  }

  /** Box diverts and Swap rewrites every IPv4 frame for the target toward the proxy;
      Swap's second rule turns the proxy's replies back into the target's. */
  lemma RedirectRulesShape(e: Event, dps: seq<Dpid>)
    requires WellFormed(e) && e.strategy != MycoScout && e.targetDpid in dps
    ensures var rules := StartRules(e, dps);
            var p := e.proxy.value;
            && |rules| == (if e.strategy == MycoBox then 1 else 2)
            && rules[0].priority == (if e.strategy == MycoBox then BOX_PRIORITY else SWAP_PRIORITY)
            && rules[0].flowMatch.ipv4Dst == Some(e.targetIp) && rules[0].flowMatch.ethType == Some(ETH_TYPE_IP)
            && rules[0].actions == [SetIpv4Dst(p.ip), SetEthDst(p.mac), Out(p.port)]
            && (e.strategy == MycoSwap ==>
                  && rules[1].flowMatch == IpMatch(Some(p.port), Some(p.ip), None)
                  && rules[1].actions == [SetIpv4Src(e.targetIp), SetEthSrc(e.targetMac), ToController])
  {
  }

  /** `_cleanup_event`: a cookie delete for every registered switch, in order. */
  function CleanupRules(dps: seq<Dpid>, cookie: int): (sent: seq<Message>)
    ensures |sent| == |dps|
    ensures forall i :: 0 <= i < |dps| ==> sent[i] == FlowDelete(dps[i], cookie)
  {
    seq(|dps|, i requires 0 <= i < |dps| => FlowDelete(dps[i], cookie))
  }

  /** Every rule an event installs is removed when it ends: switches are never
      unregistered, so each one that received a start rule receives the cookie
      delete. */
  lemma {:induction false} CleanupCoversStartRules(e: Event, dps: seq<Dpid>, later: seq<Dpid>)
    requires WellFormed(e)
    requires forall d | d in dps :: d in later
    ensures forall m | m in StartRules(e, dps) :: FlowDelete(m.dpid, e.cookie) in CleanupRules(later, e.cookie)
  {
    forall m | m in StartRules(e, dps)
      ensures FlowDelete(m.dpid, e.cookie) in CleanupRules(later, e.cookie)
    {
      var k :| 0 <= k < |later| && later[k] == m.dpid;
      assert CleanupRules(later, e.cookie)[k] == FlowDelete(m.dpid, e.cookie);
    }
  }

  /** The rules the controller installs outside an event, the table-miss rule and the
      learned L2 rules, carry cookie 0. */
  lemma BaselineCookieZero(d: Dpid, f: Frame, ports: map<Key, PortNo>)
    ensures TableMiss(d).FlowAdd? && TableMiss(d).cookie == 0
    ensures forall m | m in Learning(d, f, ports) && m.FlowAdd? :: m.cookie == 0
  {
  }

  /** Cleanup removes only the event's own rules: its deletes remove no rule with
      another cookie, so with the event's (positive) cookie neither the table-miss rule
      nor any learned L2 rule is removed. */
  lemma {:induction false} CleanupSparesOtherRules(cookie: int, dps: seq<Dpid>, d: Dpid, f: Frame, ports: map<Key, PortNo>)
    requires cookie != 0
    ensures forall del, m | del in CleanupRules(dps, cookie) && Removes(del, m) :: m.cookie == cookie
    ensures forall del | del in CleanupRules(dps, cookie) :: !Removes(del, TableMiss(d))
    ensures forall del, m | del in CleanupRules(dps, cookie) && m in Learning(d, f, ports) :: !Removes(del, m)
  {
    var sent := CleanupRules(dps, cookie);
    forall del | del in sent
      ensures del.FlowDelete? && del.cookie == cookie
    {
      var k :| 0 <= k < |sent| && sent[k] == del;
    }
    BaselineCookieZero(d, f, ports);
  }

  /** `_auto_end_event`: the active event (if any) is cleaned up and the slot cleared. */
  datatype Ending = Ending(active: Option<Event>, sent: seq<Message>)

  function End(active: Option<Event>, dps: seq<Dpid>): (r: Ending)
    ensures r.active == None
    ensures active.None? ==> r.sent == []
    ensures active.Some? ==> r.sent == CleanupRules(dps, active.value.cookie)
  {
    if active.None? then Ending(None, [])
    else Ending(None, CleanupRules(dps, active.value.cookie))
  }

  /** Ending is idempotent: a second end changes nothing and sends nothing. This
      follows in one step from `End` always clearing the slot. */
  lemma EndIdempotent(active: Option<Event>, dps: seq<Dpid>)
    ensures End(End(active, dps).active, dps) == Ending(None, [])
  {
  }

  // ---------------- ARP steering ----------------

  function ProxyMac(e: Event): Mac
  {
    if e.proxy.Some? then e.proxy.value.mac else ""
  }

  /** The request `_handle_arp` answers: an ARP request for the active target's IP
      while the event has a non-empty proxy MAC. */
  predicate Steered(active: Option<Event>, a: ArpHeader)
  {
    a.opcode == ARP_REQUEST && active.Some? && a.dstIp == active.value.targetIp && ProxyMac(active.value) != ""
  }

  /** `_handle_arp` as intended: the reply says the target's IP is at the proxy's
      MAC, is addressed to the requester, and leaves by the port the request came in. */
  function ArpSteering(active: Option<Event>, dpid: Dpid, inPort: PortNo, f: Frame, a: ArpHeader): (sent: seq<Message>)
    ensures sent != [] <==> Steered(active, a)
    ensures Steered(active, a) ==>
              var e := active.value;
              && |sent| == 1 && sent[0].PacketOut? && sent[0].dpid == dpid
              && sent[0].bufferId == OFP_NO_BUFFER && sent[0].inPort == OFPP_CONTROLLER
              && sent[0].actions == [Out(inPort)]
              && sent[0].data == ArpData(f.src, ProxyMac(e), ARP_REPLY, ProxyMac(e), e.targetIp, a.srcMac, a.srcIp)
  {
    if !Steered(active, a) then []
    else
      var e := active.value;
      var pm := ProxyMac(e);
      [PacketOut(dpid, OFP_NO_BUFFER, OFPP_CONTROLLER, [Out(inPort)], ArpData(f.src, pm, ARP_REPLY, pm, e.targetIp, a.srcMac, a.srcIp))]
  }

  /** A myco_scout event never steers ARP (it has no proxy), and once the event has
      ended no ARP is answered. */
  lemma ScoutAndIdleNeverSteer(active: Option<Event>, dpid: Dpid, inPort: PortNo, f: Frame, a: ArpHeader)
    requires active.None? || (WellFormed(active.value) && active.value.strategy == MycoScout)
    ensures ArpSteering(active, dpid, inPort, f, a) == []
  {
  }

  /** What `_handle_arp` does as written: on the path that should answer, line 247
      names `ether`, which the module never imports, so the handler raises NameError
      before anything is sent. */
  datatype ArpResult = Silent | Replied(m: Message) | Raised(name: string)

  function ArpSteeringAsWritten(active: Option<Event>, dpid: Dpid, inPort: PortNo, f: Frame, a: ArpHeader): (r: ArpResult)
    ensures r.Raised? <==> Steered(active, a)
    ensures !r.Replied?
  {
    if !Steered(active, a) then Silent else Raised("ether")
  }

  /** The discrepancy: exactly the requests the steering is for go unanswered as
      written, while the intended handler answers each of them with one reply. */
  lemma ArpSteeringNeverAnswers(active: Option<Event>, dpid: Dpid, inPort: PortNo, f: Frame, a: ArpHeader)
    requires Steered(active, a)
    ensures ArpSteeringAsWritten(active, dpid, inPort, f, a) == Raised("ether")
    ensures |ArpSteering(active, dpid, inPort, f, a)| == 1
  {
  }

  /** A concrete input: a myco_box event for 10.0.0.7 with proxy 10.0.0.100 and an
      ARP request "who has 10.0.0.7". */
  lemma ArpSteeringCounterexample()
    ensures var p := ProxyEntry("10.0.0.100", "00:00:00:00:00:64", 3, 1);
            var e := Event(MycoBox, "10.0.0.7", "00:00:00:00:00:07", 1, Some(p), 8.0, 1);
            var req := ArpHeader(ARP_REQUEST, "00:00:00:00:00:05", "10.0.0.5", "00:00:00:00:00:00", "10.0.0.7");
            var f := Frame(2, OFP_NO_BUFFER, ETH_TYPE_ARP, "00:00:00:00:00:05", "ff:ff:ff:ff:ff:ff", Some(req));
            && ArpSteeringAsWritten(Some(e), 1, 2, f, req) == Raised("ether")
            && ArpSteering(Some(e), 1, 2, f, req)[0].data.srcMac == "00:00:00:00:00:64"
  {
    var p := ProxyEntry("10.0.0.100", "00:00:00:00:00:64", 3, 1);
    var e := Event(MycoBox, "10.0.0.7", "00:00:00:00:00:07", 1, Some(p), 8.0, 1);
    var req := ArpHeader(ARP_REQUEST, "00:00:00:00:00:05", "10.0.0.5", "00:00:00:00:00:00", "10.0.0.7");
    assert Steered(Some(e), req);
  }

  // ---------------- L2 learning ----------------

  /** The non-ARP part of `packet_in` (lines 198-220): a priority-10, idle-30 rule
      toward a learned destination, and a packet-out in every case (a buffered frame
      included), carrying the frame only when unbuffered. */
  function Learning(dpid: Dpid, f: Frame, ports: map<Key, PortNo>): (sent: seq<Message>)
    ensures (dpid, f.dst) in ports && ports[(dpid, f.dst)] != OFPP_FLOOD ==>
              var actions := [Out(ports[(dpid, f.dst)])];
              sent == [FlowAdd(dpid, 0, L2_PRIORITY, MatchL2(f.inPort, f.src, f.dst), actions, L2_IDLE, 0, OFP_NO_BUFFER),
                       FrameOut(dpid, f, actions)]
    ensures (dpid, f.dst) !in ports ==> sent == [FrameOut(dpid, f, [Out(OFPP_FLOOD)])]
  {
    var outPort := if (dpid, f.dst) in ports then ports[(dpid, f.dst)] else OFPP_FLOOD;
    var actions := [Out(outPort)];
    (if outPort != OFPP_FLOOD
     then [FlowAdd(dpid, 0, L2_PRIORITY, MatchL2(f.inPort, f.src, f.dst), actions, L2_IDLE, 0, OFP_NO_BUFFER)]
     else [])
    + [FrameOut(dpid, f, actions)]
  }

  // ---------------- The controller ----------------

  /** The Ryu application object of myco_controller_gpt.py. */
  class MycoBarrierController {
    var macToPort: map<Key, PortNo>
    /** The keys of `datapaths`, in registration order. */
    var datapaths: seq<Dpid>
    const hostByIp: map<Ip, HostEntry>
    const proxiesByDpid: map<Dpid, seq<ProxyEntry>>
    var activeEvent: Option<Event>
    /** `_echo_sent`: send time of each unanswered probe, by (switch, xid). */
    var echoSent: map<(Dpid, int), real>
    var xid: int
    var outbox: seq<Message>

    /** Switches are registered once; an active event is well formed; every pending
        probe's xid was handed out already, so a new probe never overwrites one. */
    ghost predicate Valid()
      reads this
    {
      && (forall i, j :: 0 <= i < j < |datapaths| ==> datapaths[i] != datapaths[j])
      && (activeEvent.Some? ==> WellFormed(activeEvent.value) && activeEvent.value.cookie > 0)
      && xid >= 1
      && (forall k | k in echoSent :: k.1 < xid)
    }

    constructor (hosts: seq<HostEntry>, proxies: seq<ProxyEntry>)
      ensures Valid()
      ensures hostByIp == HostIndex(hosts) && proxiesByDpid == ProxyIndex(proxies)
      ensures macToPort == map[] && datapaths == [] && activeEvent == None
      ensures echoSent == map[] && xid == 1 && outbox == []
    {
      var h := BuildHostIndex(hosts);
      var p := BuildProxyIndex(proxies);
      hostByIp, proxiesByDpid := h, p;
      macToPort, datapaths, activeEvent := map[], [], None;
      echoSent, xid, outbox := map[], 1, [];
    }

    method SwitchFeatures(dpid: Dpid)
      requires Valid()
      modifies this
      ensures Valid()
      ensures datapaths == if dpid in old(datapaths) then old(datapaths) else old(datapaths) + [dpid]
      ensures outbox == old(outbox) + [TableMiss(dpid)]
      ensures macToPort == old(macToPort) && activeEvent == old(activeEvent)
      ensures echoSent == old(echoSent) && xid == old(xid)
    {
      if dpid !in datapaths {
        datapaths := datapaths + [dpid];
      }
      outbox := outbox + [TableMiss(dpid)];
    }

    /** `packet_in`; `frame` is `None` when the packet has no Ethernet header. */
    method PacketIn(dpid: Dpid, frame: Option<Frame>)
      modifies this
      ensures frame.None? ==> macToPort == old(macToPort) && outbox == old(outbox)
      ensures frame.Some? && frame.value.arp.Some? ==>
                && macToPort == old(macToPort)
                && outbox == old(outbox) + ArpSteering(activeEvent, dpid, frame.value.inPort, frame.value, frame.value.arp.value)
      ensures frame.Some? && frame.value.arp.None? ==>
                var f := frame.value;
                && macToPort == old(macToPort)[(dpid, f.src) := f.inPort]
                && outbox == old(outbox) + Learning(dpid, f, macToPort)
      ensures datapaths == old(datapaths) && activeEvent == old(activeEvent)
      ensures echoSent == old(echoSent) && xid == old(xid)
    {
      if frame.None? {
        return;
      }
      var f := frame.value;
      if f.arp.Some? {
        HandleArp(dpid, f.inPort, f, f.arp.value);
        return;
      }
      macToPort := macToPort[(dpid, f.src) := f.inPort];
      var outPort := if (dpid, f.dst) in macToPort then macToPort[(dpid, f.dst)] else OFPP_FLOOD;
      var actions := [Out(outPort)];
      if outPort != OFPP_FLOOD {
        outbox := outbox + [FlowAdd(dpid, 0, L2_PRIORITY, MatchL2(f.inPort, f.src, f.dst), actions, L2_IDLE, 0, OFP_NO_BUFFER)];
      }
      var data := if f.bufferId == OFP_NO_BUFFER then FrameData else NoData;
      outbox := outbox + [PacketOut(dpid, f.bufferId, f.inPort, actions, data)];
    }

    /** `_handle_arp`, with the reply it is meant to send. */
    method HandleArp(dpid: Dpid, inPort: PortNo, f: Frame, a: ArpHeader)
      modifies this
      ensures outbox == old(outbox) + ArpSteering(activeEvent, dpid, inPort, f, a)
      ensures macToPort == old(macToPort) && datapaths == old(datapaths) && activeEvent == old(activeEvent)
      ensures echoSent == old(echoSent) && xid == old(xid)
    {
      if a.opcode != ARP_REQUEST {
        return;
      }
      if activeEvent.None? {
        return;
      }
      var targetIp := activeEvent.value.targetIp;
      if a.dstIp != targetIp {
        return;
      }
      var proxyMac := ProxyMac(activeEvent.value);
      if proxyMac == "" {
        return;
      }
      var reply := ArpData(f.src, proxyMac, ARP_REPLY, proxyMac, targetIp, a.srcMac, a.srcIp);
      outbox := outbox + [PacketOut(dpid, OFP_NO_BUFFER, OFPP_CONTROLLER, [Out(inPort)], reply)];
    }

    /** `_send_echo`: probe switch `dpid` with the next xid at time `now`. */
    method SendEcho(dpid: Dpid, now: real)
      requires Valid()
      modifies this
      ensures Valid()
      ensures (dpid, old(xid)) !in old(echoSent)
      ensures echoSent == old(echoSent)[(dpid, old(xid)) := now] && xid == old(xid) + 1
      ensures outbox == old(outbox) + [EchoRequest(dpid, old(xid))]
      ensures macToPort == old(macToPort) && datapaths == old(datapaths) && activeEvent == old(activeEvent)
    {
      var probe := xid;
      xid := xid + 1;
      echoSent := echoSent[(dpid, probe) := now];
      outbox := outbox + [EchoRequest(dpid, probe)];
    }

    /** `echo_reply`: `probe` is the reply's data read as an integer (`None` when it
        is not one); a pending probe is removed and its round-trip time in
        milliseconds returned, anything else is ignored. */
    method EchoReply(dpid: Dpid, probe: Option<int>, now: real) returns (rttMs: Option<real>)
      requires Valid()
      modifies this
      ensures Valid()
      ensures probe.Some? && (dpid, probe.value) in old(echoSent) ==>
                && rttMs == Some((now - old(echoSent)[(dpid, probe.value)]) * 1000.0)
                && echoSent == old(echoSent) - {(dpid, probe.value)}
      ensures !(probe.Some? && (dpid, probe.value) in old(echoSent)) ==> rttMs == None && echoSent == old(echoSent)
      ensures xid == old(xid) && outbox == old(outbox)
      ensures macToPort == old(macToPort) && datapaths == old(datapaths) && activeEvent == old(activeEvent)
    {
      if probe.None? {
        return None;
      }
      var key := (dpid, probe.value);
      if key !in echoSent {
        return None;
      }
      var sent := echoSent[key];
      echoSent := echoSent - {key};
      return Some((now - sent) * 1000.0);
    }

    /** `post_event`: validate the request, then hand it to `trigger_event`;
        `cookie` is the millisecond clock reading the event would be tagged with
        (`int(time.time() * 1000)`, always positive). */
    method PostEvent(r: Request, cookie: int) returns (v: Verdict<Event>)
      requires Valid()
      requires cookie > 0
      modifies this
      ensures Valid()
      ensures Validate(r).Refused? ==> v == Refused(Validate(r).why) && activeEvent == old(activeEvent) && outbox == old(outbox)
      ensures Validate(r).Ok? ==>
                && v == Admit(hostByIp, proxiesByDpid, old(activeEvent), Validate(r).value, cookie)
                && activeEvent == (if v.Ok? then Some(v.value) else old(activeEvent))
                && outbox == old(outbox) + (if v.Ok? then StartRules(v.value, datapaths) else [])
      ensures macToPort == old(macToPort) && datapaths == old(datapaths)
      ensures echoSent == old(echoSent) && xid == old(xid)
    {
      var checked := Validate(r);
      if checked.Refused? {
        return Refused(checked.why);
      }
      v := TriggerEvent(checked.value, cookie);
    }

    /** `trigger_event` followed by `_apply_strategy_start`. */
    method TriggerEvent(c: Checked, cookie: int) returns (v: Verdict<Event>)
      requires Valid()
      requires cookie > 0
      modifies this
      ensures Valid()
      ensures v == Admit(hostByIp, proxiesByDpid, old(activeEvent), c, cookie)
      ensures activeEvent == (if v.Ok? then Some(v.value) else old(activeEvent))
      ensures outbox == old(outbox) + (if v.Ok? then StartRules(v.value, datapaths) else [])
      ensures macToPort == old(macToPort) && datapaths == old(datapaths)
      ensures echoSent == old(echoSent) && xid == old(xid)
    {
      if c.targetIp !in hostByIp {
        return Refused(UnknownTarget(c.targetIp));
      }
      if activeEvent.Some? {
        return Refused(EventActive);
      }
      var target := hostByIp[c.targetIp];
      var proxy: Option<ProxyEntry> := None;
      if c.strategy == MycoBox || c.strategy == MycoSwap {
        var candidates := Candidates(proxiesByDpid, target.dpid);
        if candidates == [] {
          return Refused(NoProxy(target.dpid));
        }
        proxy := Some(candidates[0]);
      }
      var e := Event(c.strategy, c.targetIp, target.mac, target.dpid, proxy, c.durationS, cookie);
      activeEvent := Some(e);
      ApplyStrategyStart(e);
      return Ok(e);
    }

    method ApplyStrategyStart(e: Event)
      requires WellFormed(e)
      modifies this
      ensures outbox == old(outbox) + StartRules(e, datapaths)
      ensures macToPort == old(macToPort) && datapaths == old(datapaths) && activeEvent == old(activeEvent)
      ensures echoSent == old(echoSent) && xid == old(xid)
    {
      match e.strategy
      case MycoScout => ScoutIsolate(e.targetIp, e.cookie);
      case MycoBox =>
        if e.targetDpid in datapaths {
          var rule := CookieRule(e.targetDpid, e.cookie, BOX_PRIORITY, IpMatch(None, None, Some(e.targetIp)), RedirectActions(e.proxy.value));
          outbox := outbox + [rule];
        }
      case MycoSwap =>
        if e.targetDpid in datapaths {
          var p := e.proxy.value;
          var inbound := CookieRule(e.targetDpid, e.cookie, SWAP_PRIORITY, IpMatch(None, None, Some(e.targetIp)), RedirectActions(p));
          var outbound := CookieRule(e.targetDpid, e.cookie, SWAP_PRIORITY, IpMatch(Some(p.port), Some(p.ip), None),
                                     [SetIpv4Src(e.targetIp), SetEthSrc(e.targetMac), ToController]);
          outbox := outbox + [inbound];
          outbox := outbox + [outbound];
        }
    }

    /** `_myco_scout_isolate`: the loop over the registered switches. */
    method ScoutIsolate(targetIp: Ip, cookie: int)
      modifies this
      ensures outbox == old(outbox) + ScoutRules(datapaths, targetIp, cookie)
      ensures macToPort == old(macToPort) && datapaths == old(datapaths) && activeEvent == old(activeEvent)
      ensures echoSent == old(echoSent) && xid == old(xid)
    {
      var dps := datapaths;
      for i := 0 to |dps|
        invariant macToPort == old(macToPort) && datapaths == old(datapaths) && activeEvent == old(activeEvent)
        invariant echoSent == old(echoSent) && xid == old(xid)
        invariant outbox == old(outbox) + ScoutRules(dps[..i], targetIp, cookie)
      {
        var d := dps[i];
        assert dps[..i + 1] == dps[..i] + [d];
        ScoutRulesSnoc(dps[..i], d, targetIp, cookie);
        ghost var before := outbox;
        outbox := outbox + [CookieRule(d, cookie, SCOUT_PRIORITY, IpMatch(None, None, Some(targetIp)), [])];
        outbox := outbox + [CookieRule(d, cookie, SCOUT_PRIORITY, IpMatch(None, Some(targetIp), None), [])];
        assert outbox == before + ScoutPair(d, targetIp, cookie);
      }
      assert dps[..|dps|] == dps;
    }

    /** `_auto_end_event`, once its sleep is over. */
    method AutoEndEvent()
      modifies this
      ensures var r := End(old(activeEvent), datapaths);
              activeEvent == r.active && outbox == old(outbox) + r.sent
      ensures macToPort == old(macToPort) && datapaths == old(datapaths)
      ensures echoSent == old(echoSent) && xid == old(xid)
    {
      if activeEvent.None? {
        return;
      }
      CleanupEvent(activeEvent.value.cookie);
      activeEvent := None;
    }

    /** `_cleanup_event`: the loop over the registered switches. */
    method CleanupEvent(cookie: int)
      modifies this
      ensures outbox == old(outbox) + CleanupRules(datapaths, cookie)
      ensures macToPort == old(macToPort) && datapaths == old(datapaths) && activeEvent == old(activeEvent)
      ensures echoSent == old(echoSent) && xid == old(xid)
    {
      for i := 0 to |datapaths|
        invariant macToPort == old(macToPort) && datapaths == old(datapaths) && activeEvent == old(activeEvent)
        invariant echoSent == old(echoSent) && xid == old(xid)
        invariant outbox == old(outbox) + CleanupRules(datapaths[..i], cookie)
      {
        outbox := outbox + [FlowDelete(datapaths[i], cookie)];
      }
      assert datapaths[..|datapaths|] == datapaths;
    }
  }
}
