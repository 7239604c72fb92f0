/** The anomaly detector's counter table, shared by every packet-in variant:
    one count per (switch, source MAC), all dropped at once when more than one
    second has passed since the table was opened (a fixed window, not a sliding one). */
module RateWindow {
  import opened OpenFlow

  /** `packet_counts[dpid].setdefault(src, 0)`: an absent pair counts as zero. */
  function CountOf(counts: map<Key, nat>, k: Key): nat
  {
    if k in counts then counts[k] else 0
  }

  /** `now - start_time > 1.0`: the window has run out. */
  predicate Expired(start: real, now: real)
  {
    now - start > 1.0
  }

  datatype Tally = Tally(counts: map<Key, nat>, start: real, count: nat)

  /** One counted frame for `k` at time `now`: the table is first emptied (and the
      window reopened at `now`) if it has expired, then `k` goes up by one.
      `count` is the post-increment count the detector compares with its threshold. */
  function Tick(counts: map<Key, nat>, start: real, now: real, k: Key): (t: Tally)
    ensures t.count == CountOf(t.counts, k)
    ensures t.count == (if Expired(start, now) then 1 else CountOf(counts, k) + 1)
    ensures t.start == (if Expired(start, now) then now else start)
    ensures forall j :: j != k ==> CountOf(t.counts, j) == (if Expired(start, now) then 0 else CountOf(counts, j))
    ensures t.counts.Keys == (if Expired(start, now) then {k} else counts.Keys + {k})
  {
    var base := if Expired(start, now) then map[] else counts;
    var start' := if Expired(start, now) then now else start;
    Tally(base[k := CountOf(base, k) + 1], start', CountOf(base, k) + 1)
  }
}
