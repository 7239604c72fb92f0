/** The quarantine and reintegration state machine. A quarantine table maps each
    isolated MAC to its release time; once that time is reached, a verification
    trial (a random draw in the controllers, a boolean parameter here) decides
    between release and a fixed extension. Two variants exist: the two-step check
    of myco_barrier_logic.py, which first queues the MAC for verification, and the
    one-step check of myco_final_controller.py and resource_monitor.py. */
module Quarantine {
  import opened OpenFlow

  /** Seconds of first-degree isolation, and the hard timeout of its drop rule. */
  const RECOVERY_TIME: nat := 10
  /** Seconds added to the release time by a failed verification. */
  const PENALTY: real := 5.0

  type Table = map<Mac, real>

  /** No MAC waits for verification unless it is quarantined. */
  predicate PendingInTable(q: Table, pending: set<Mac>)
  {
    pending <= q.Keys
  }

  /** The outcome of `check_reintegration`: whether the frame may pass, and the
      new quarantine table and verification queue. */
  datatype Gate = Gate(allowed: bool, table: Table, pending: set<Mac>)

  /** `check_reintegration(src)` of myco_barrier_logic.py, with `clean` the outcome
      of the verification trial (drawn only on the branch that uses it). */
  function Reintegration(q: Table, pending: set<Mac>, src: Mac, now: real, clean: bool): (g: Gate)
    // a frame passes exactly when its source leaves the check unquarantined
    ensures g.allowed <==> src !in g.table
    ensures src !in q ==> g == Gate(true, q, pending)
    // timer still running (the release instant itself included): refused, nothing changes
    ensures src in q && now <= q[src] ==> g == Gate(false, q, pending)
    // the first check after expiry only queues the MAC; no trial is run
    ensures src in q && now > q[src] && src !in pending ==> g == Gate(false, q, pending + {src})
    // a trial on a queued, expired MAC: success releases it from both, failure extends by 5 s
    ensures src in q && now > q[src] && src in pending && clean ==> g == Gate(true, q - {src}, pending - {src})
    ensures src in q && now > q[src] && src in pending && !clean ==>
              g == Gate(false, q[src := q[src] + PENALTY], pending)
    // release only through a successful trial on a queued MAC
    ensures src in q && g.allowed ==> src in pending && clean && now > q[src]
    // no other MAC is touched, and the queue stays inside the table
    ensures forall m :: m != src ==> (m in g.table <==> m in q) && (m in g.pending <==> m in pending)
    ensures forall m :: m != src && m in q ==> g.table[m] == q[m]
    ensures PendingInTable(q, pending) ==> PendingInTable(g.table, g.pending)
  {
    if src !in q then Gate(true, q, pending)
    else if now <= q[src] then Gate(false, q, pending)
    else if src !in pending then Gate(false, q, pending + {src})
    else if clean then Gate(true, q - {src}, pending - {src})
    else Gate(false, q[src := q[src] + PENALTY], pending)
  }

  datatype Status = Allow | Drop | Reintegrate

  datatype Check = Check(status: Status, table: Table)

  /** `check_security_status(src)` of myco_final_controller.py and resource_monitor.py;
      `passed` is `not (random.random() < INFECTION_RATE)`. */
  function SecurityCheck(q: Table, src: Mac, now: real, passed: bool): (c: Check)
    // ALLOW exactly for an unquarantined MAC, and then the table is left alone
    ensures c.status == Allow <==> src !in q
    ensures c.status == Allow ==> c.table == q
    // every verdict but DROP leaves the source out of the table
    ensures c.status != Drop <==> src !in c.table
    // timer still running (strictly before the release instant): DROP, nothing changes
    ensures src in q && now < q[src] ==> c == Check(Drop, q)
    // from the release instant on, one trial per check
    ensures src in q && now >= q[src] && !passed ==> c == Check(Drop, q[src := q[src] + PENALTY])
    ensures src in q && now >= q[src] && passed ==> c == Check(Reintegrate, q - {src})
    ensures forall m :: m != src ==> (m in c.table <==> m in q)
    ensures forall m :: m != src && m in q ==> c.table[m] == q[m]
  {
    if src in q then
      if now < q[src] then Check(Drop, q)
      else if !passed then Check(Drop, q[src := q[src] + PENALTY])
      else Check(Reintegrate, q - {src})
    else Check(Allow, q)
  }

  /** The two variants disagree at the release instant itself: the two-step check
      still refuses without a trial, the one-step check already runs one. */
  lemma BoundaryDiffers(q: Table, pending: set<Mac>, src: Mac, clean: bool)
    requires src in q
    ensures Reintegration(q, pending, src, q[src], clean) == Gate(false, q, pending)
    ensures SecurityCheck(q, src, q[src], clean).status == (if clean then Reintegrate else Drop)
    ensures clean ==> src !in SecurityCheck(q, src, q[src], clean).table
  {
  }

  /** A failed trial keeps the MAC queued, so the very next check runs another trial
      as soon as the extended release time has passed (the queue entry is not cleared). */
  lemma {:induction false} FailedTrialStaysQueued(q: Table, pending: set<Mac>, src: Mac, now: real, later: real, clean: bool)
    requires src in q && src in pending && now > q[src]
    requires later > q[src] + PENALTY
    ensures var g := Reintegration(q, pending, src, now, false);
            src in g.pending && src in g.table &&
            Reintegration(g.table, g.pending, src, later, clean).allowed == clean
  {
    var g := Reintegration(q, pending, src, now, false);
    assert g.table[src] == q[src] + PENALTY;
  }
}
