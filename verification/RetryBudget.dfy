/** How much one call may cost, and when an insert may be sent again. */
module RetryBudget {
  import opened Basics
  import opened Cmdb
  import opened Retry
  import opened RetryProofs

  function Requests(log: seq<Event>): nat {
    if log == [] then 0
    else Requests(log[..|log| - 1]) + if log[|log| - 1].Sent? then 1 else 0
  }

  function Rested(log: seq<Event>): real {
    if log == [] then 0.0
    else Rested(log[..|log| - 1]) + if log[|log| - 1].Slept? then log[|log| - 1].seconds else 0.0
  }

  /** The longest the loop may still sleep from attempt `k` of `n` on. */
  function Naps(k: nat, n: nat): (r: real)
    ensures r >= 0.0
    decreases n - k
  {
    if k >= n then 0.0 else RETRY_BASE * k as real + RETRY_JITTER + Naps(k + 1, n)
  }

  lemma {:induction false} NapsFrom(k: nat, n: nat)
    requires k <= n
    ensures 2.0 * Naps(k, n) == RETRY_BASE * (n * (n - 1) - k * (k - 1)) as real + 2.0 * RETRY_JITTER * (n - k) as real
    decreases n - k
  {
    if k < n {
      NapsFrom(k + 1, n);
      assert (k + 1) * k - k * (k - 1) == 2 * k;
    }
  }

  /** base * n(n-1)/2 + jitter * (n-1), in closed form. */
  lemma NapsTotal(n: nat)
    requires n >= 1
    ensures 2.0 * Naps(1, n) == RETRY_BASE * (n * (n - 1)) as real + 2.0 * RETRY_JITTER * (n - 1) as real
  {
    NapsFrom(1, n);
  }

  lemma LogOne(log: seq<Event>, e: Event)
    ensures Requests(log + [e]) == Requests(log) + if e.Sent? then 1 else 0
    ensures Rested(log + [e]) == Rested(log) + if e.Slept? then e.seconds else 0.0
  {
    assert (log + [e])[..|log|] == log;
  }

  /** Requests one re-select may take. */
  function Probes(sel: Selector, n: nat): nat {
    match sel
    case NoSelector => 0
    case Once(_) => 1
    case AttachedIp(_, _) => n
    case AttachEndpoint(_, _, _, _) => n + 1
  }

  /** Seconds one re-select may sleep. */
  function ProbeNaps(sel: Selector, n: nat): (r: real)
    ensures r >= 0.0
  {
    if sel.NoSelector? || sel.Once? then 0.0 else Naps(1, n)
  }

  ghost predicate Within(w: World, t: Turn, requests: nat, seconds: real) {
    && Requests(t.w.log) <= Requests(w.log) + requests
    && Rested(t.w.log) <= Rested(w.log) + seconds
  }

  lemma ExchangeCost(w: World, op: Op)
    ensures Within(w, Exchange(w, op), 1, 0.0)
  {
    hide Commit, Reads, Met;
    LogOne(w.log, Sent(op, Fate(w), Exchange(w, op).answer));
  }

  lemma NapCost(w: World, k: nat)
    ensures Requests(Nap(w, k).log) == Requests(w.log)
    ensures Rested(Nap(w, k).log) <= Rested(w.log) + RETRY_BASE * k as real + RETRY_JITTER
  {
    LogOne(w.log, Nap(w, k).log[|w.log|]);
  }

  lemma {:induction false} PlainCost(w: World, op: Op, o: Opts, k: nat)
    requires 1 <= k <= Tries(w)
    ensures Within(w, Attempts(w, op, NoSelector, o, k), Tries(w) - k + 1, Naps(k, Tries(w)))
    decreases Tries(w) - k
  {
    hide Requests, Rested, Commit, Reads, Met, Exchange;
    assert Attempts(w, op, NoSelector, o, k) == Issue(w, op, NoSelector, o, k);
    ExchangeCost(w, op);
    var sent := Exchange(w, op);
    if sent.answer.Threw? && !sent.answer.exn.Perm? && k < Tries(w) {
      NapCost(sent.w, k);
      PlainCost(Nap(sent.w, k), op, o, k + 1);
    }
  }

  lemma ReselectCost(w: World, sel: Selector)
    requires !sel.NoSelector?
    ensures Within(w, Reselect(w, sel), Probes(sel, Tries(w)), ProbeNaps(sel, Tries(w)))
  {
    hide Commit, Reads, Met, Exchange, Attempts;
    match sel
    case Once(query) => ExchangeCost(w, query);
    case AttachedIp(addr, uuid) => PlainCost(w, SelectAttachedIp(addr, uuid), PROBE, 1);
    case AttachEndpoint(addr, uuid, server, name) =>
      PlainCost(w, SelectAttachedIp(addr, uuid), PROBE, 1);
      ExchangeCost(Attempts(w, SelectAttachedIp(addr, uuid), NoSelector, PROBE, 1).w, SelectEndpointByName(server, name));
  }

  /** Requests and seconds left to a guarded call from attempt `k` on. */
  function GuardedRequests(sel: Selector, k: nat, n: nat): nat
    requires k <= n
  {
    (n - k) * (Probes(sel, n) + 1)
  }

  function GuardedNaps(sel: Selector, k: nat, n: nat): real
    requires k <= n
  {
    Naps(k, n) + (n - k) as real * ProbeNaps(sel, n)
  }

  lemma GuardedStep(sel: Selector, k: nat, n: nat)
    requires k < n
    ensures GuardedRequests(sel, k, n) == GuardedRequests(sel, k + 1, n) + Probes(sel, n) + 1
    ensures GuardedNaps(sel, k, n) == GuardedNaps(sel, k + 1, n) + ProbeNaps(sel, n) + RETRY_BASE * k as real + RETRY_JITTER
  {
    hide Probes, ProbeNaps;
    OneMoreTime(n - k - 1, Probes(sel, n) + 1, ProbeNaps(sel, n));
  }

  lemma OneMoreTime(a: nat, p: nat, q: real)
    ensures (a + 1) * p == a * p + p && (a + 1) as real * q == a as real * q + q
  {
    assert (a + 1) as real == a as real + 1.0;
  }

  lemma {:induction false} IssueCost(w: World, op: Op, sel: Selector, o: Opts, k: nat)
    requires 1 <= k <= Tries(w) && !sel.NoSelector?
    ensures Within(w, Issue(w, op, sel, o, k), GuardedRequests(sel, k, Tries(w)) + 1, GuardedNaps(sel, k, Tries(w)))
    decreases Tries(w) - k, 0
  {
    hide Commit, Reads, Met, Exchange, Attempts, GuardedRequests, GuardedNaps, Reselect, Requests, Rested;
    ExchangeCost(w, op);
    var sent := Exchange(w, op);
    if k < Tries(w) { GuardedStep(sel, k, Tries(w)); }
    GuardedNonNegative(sel, k, Tries(w));
    if sent.answer.Threw? && !sent.answer.exn.Perm? && k < Tries(w) {
      NapCost(sent.w, k);
      GuardedCost(Nap(sent.w, k), op, sel, o, k + 1);
    }
  }

  lemma GuardedNonNegative(sel: Selector, k: nat, n: nat)
    requires k <= n
    ensures GuardedNaps(sel, k, n) >= 0.0
  {
    assert (n - k) as real * ProbeNaps(sel, n) >= 0.0;
  }

  /**
   The whole cost of a guarded call: with n attempts, a bare re-select costs at
   most 2n-1 requests, the attach probe n*n, and the attach endpoint probe n*n+n-1.
   */
  lemma {:induction false} GuardedCost(w: World, op: Op, sel: Selector, o: Opts, k: nat)
    requires 1 <= k <= Tries(w) && !sel.NoSelector?
    ensures
      var n := Tries(w);
      var probes := if k == 1 then 0 else Probes(sel, n);
      var naps := if k == 1 then 0.0 else ProbeNaps(sel, n);
      Within(w, Attempts(w, op, sel, o, k), GuardedRequests(sel, k, n) + probes + 1, GuardedNaps(sel, k, n) + naps)
    decreases Tries(w) - k, 1
  {
    hide Commit, Reads, Met, Exchange, Issue, GuardedRequests, GuardedNaps, Reselect, Requests, Rested, Naps, Nap, Probes, ProbeNaps;
    if k == 1 {
      IssueCost(w, op, sel, o, k);
    } else {
      var n, found := Tries(w), Reselect(w, sel);
      var p, q := Probes(sel, n), ProbeNaps(sel, n);
      ReselectCost(w, sel);
      if k < n { GuardedStep(sel, k, n); }
      GuardedNonNegative(sel, k, n);
      if found.answer.Threw? {
        if k < n {
          var next := Nap(found.w, k);
          NapCost(found.w, k);
          GuardedCost(next, op, sel, o, k + 1);
          WithinThen(w, next, Attempts(w, op, sel, o, k), p, q + RETRY_BASE * k as real + RETRY_JITTER,
                     GuardedRequests(sel, k + 1, n) + p + 1, GuardedNaps(sel, k + 1, n) + q);
        }
      } else if found.answer.reply == Nothing {
        IssueCost(found.w, op, sel, o, k);
        WithinThen(w, found.w, Attempts(w, op, sel, o, k), p, q, GuardedRequests(sel, k, n) + 1, GuardedNaps(sel, k, n));
      }
    }
  }

  /** Costs of two stretches add up. */
  lemma WithinThen(w: World, w1: World, t: Turn, r1: nat, s1: real, r2: nat, s2: real)
    requires Requests(w1.log) <= Requests(w.log) + r1 && Rested(w1.log) <= Rested(w.log) + s1 && Within(w1, t, r2, s2)
    ensures Within(w, t, r1 + r2, s1 + s2)
  {
    hide Requests, Rested;
  }

  /** What a whole call may cost: requests, and seconds slept. */
  function CallRequests(sel: Selector, n: nat): nat
    requires n >= 1
  {
    match sel
    case NoSelector => n
    case Once(_) => 2 * n - 1
    case AttachedIp(_, _) => n * n
    case AttachEndpoint(_, _, _, _) => n * n + n - 1
  }

  function CallNaps(sel: Selector, n: nat): real {
    if sel.NoSelector? || sel.Once? then Naps(1, n) else n as real * Naps(1, n)
  }

  /** All rounds of a guarded call together. */
  lemma GuardedTotal(sel: Selector, n: nat)
    requires n >= 1 && !sel.NoSelector?
    ensures GuardedRequests(sel, 1, n) + 1 == CallRequests(sel, n) && GuardedNaps(sel, 1, n) == CallNaps(sel, n)
  {
    RoundsTotal(n, Naps(1, n));
    hide Naps;
  }

  lemma CallCost(w: World, op: Op, sel: Selector, o: Opts)
    ensures Within(w, Call(w, op, sel, o), CallRequests(sel, Tries(w)), CallNaps(sel, Tries(w)))
  {
    hide Attempts, Issue, Requests, Rested, Naps, GuardedRequests, GuardedNaps;
    var n := Tries(w);
    if sel.NoSelector? {
      PlainCost(w, op, o, 1);
    } else {
      hide CallRequests, CallNaps;
      GuardedCost(w, op, sel, o, 1);
      GuardedTotal(sel, n);
    }
  }

  lemma CallBudget(w: World, op: Op, sel: Selector, o: Opts)
    ensures
      var n := Tries(w);
      var t := Call(w, op, sel, o);
      && (sel.NoSelector? ==> Within(w, t, n, Naps(1, n)))
      && (sel.Once? ==> Within(w, t, 2 * n - 1, Naps(1, n)))
      && (sel.AttachedIp? ==> Within(w, t, n * n, n as real * Naps(1, n)))
      && (sel.AttachEndpoint? ==> Within(w, t, n * n + n - 1, n as real * Naps(1, n)))
  {
    hide Call, Within, Naps;
    CallCost(w, op, sel, o);
  }

  lemma RoundsTotal(n: nat, naps: real)
    ensures (n - 1) * (n + 1) + 1 == n * n
    ensures (n - 1) * (n + 2) + 1 == n * n + n - 1
    ensures (n - 1) as real * naps + naps == n as real * naps
  {
    assert (n - 1) as real + 1.0 == n as real;
  }

  // -- when an insert may be sent again ----------------------------------------------------

  /** A select that came back empty, or an attach probe whose rejection was swallowed. */
  ghost predicate Cleared(e: Event) {
    && e.Sent? && !e.op.Write()
    && (e.answer == Got(Nothing) || (e.op.SelectAttachedIp? && e.fault.Rejected?) )
  }

  /** From position `from` on, `op` is only sent right after a re-select cleared it. */
  ghost predicate Guarded(log: seq<Event>, from: nat, op: Op) {
    forall i :: from <= i < |log| && log[i].Sent? && log[i].op == op ==> i > 0 && Cleared(log[i - 1])
  }

  ghost predicate OnlyReads(log: seq<Event>, from: nat) {
    forall i :: from <= i < |log| && log[i].Sent? ==> !log[i].op.Write()
  }

  lemma {:induction false} ProbeTrace(w: World, addr: string, uuid: string, k: nat)
    requires 1 <= k <= Tries(w)
    ensures
      var t := Attempts(w, SelectAttachedIp(addr, uuid), NoSelector, PROBE, k);
      && OnlyReads(t.w.log, |w.log|)
      && (t.answer == Got(Nothing) ==> |t.w.log| > |w.log| && Cleared(t.w.log[|t.w.log| - 1]))
    decreases Tries(w) - k
  {
    hide Commit, Reads, Met;
    var op := SelectAttachedIp(addr, uuid);
    var sent := Exchange(w, op);
    assert Attempts(w, op, NoSelector, PROBE, k) == Issue(w, op, NoSelector, PROBE, k);
    if sent.answer.Threw? && !sent.answer.exn.Perm? && k < Tries(w) {
      ProbeTrace(Nap(sent.w, k), addr, uuid, k + 1);
    }
  }

  lemma ReselectTrace(w: World, sel: Selector)
    requires !sel.NoSelector? && Reader(sel)
    ensures
      var t := Reselect(w, sel);
      && OnlyReads(t.w.log, |w.log|)
      && (t.answer == Got(Nothing) ==> |t.w.log| > |w.log| && Cleared(t.w.log[|t.w.log| - 1]))
  {
    hide Commit, Reads, Met, Attempts;
    match sel
    case Once(query) =>
    case AttachedIp(addr, uuid) => ProbeTrace(w, addr, uuid, 1);
    case AttachEndpoint(addr, uuid, server, name) =>
      ProbeTrace(w, addr, uuid, 1);
      var probe := Attempts(w, SelectAttachedIp(addr, uuid), NoSelector, PROBE, 1);
      ExchangeTrace(probe.w, SelectEndpointByName(server, name));
  }

  lemma ExchangeTrace(w: World, q: Op)
    requires !q.Write()
    ensures
      var t := Exchange(w, q);
      && t.w.log == w.log + [Sent(q, Fate(w), t.answer)]
      && (t.answer == Got(Nothing) ==> Cleared(t.w.log[|t.w.log| - 1]))
      && forall from: nat :: from <= |w.log| && OnlyReads(w.log, from) ==> OnlyReads(t.w.log, from)
  {
    hide Commit, Reads, Met;
  }

  lemma {:induction false} IssueTrace(w: World, op: Op, sel: Selector, o: Opts, k: nat)
    requires 1 <= k <= Tries(w) && !sel.NoSelector? && Reader(sel) && op.Insert()
    ensures Guarded(Issue(w, op, sel, o, k).w.log, |w.log| + 1, op)
    decreases Tries(w) - k, 0
  {
    hide Commit, Reads, Met, Attempts, Reselect;
    var sent := Exchange(w, op);
    if sent.answer.Threw? && !sent.answer.exn.Perm? && k < Tries(w) {
      InsertIsCleared(Nap(sent.w, k), op, sel, o, k + 1);
    }
  }

  lemma GuardedJoin(from: nat, mid: seq<Event>, log: seq<Event>, op: Op)
    requires mid <= log && OnlyReads(mid, from) && op.Insert()
    requires Guarded(log, |mid|, op) || (|mid| > 0 && Cleared(mid[|mid| - 1]) && Guarded(log, |mid| + 1, op))
    ensures Guarded(log, from, op)
  {
    assert forall i :: 0 <= i < |mid| ==> log[i] == mid[i];
    hide Cleared;
  }

  lemma GuardedEmpty(from: nat, log: seq<Event>, op: Op)
    requires OnlyReads(log, from) && op.Insert()
    ensures Guarded(log, from, op)
  {
  }

  lemma NapReads(w: World, found: World, k: nat)
    requires OnlyReads(found.log, |w.log|)
    ensures OnlyReads(Nap(found, k).log, |w.log|)
  {
  }

  /**
   After the first attempt the insert is never sent unless a re-select of that
   same attempt went through and found nothing (or was a swallowed attach probe).
   */
  lemma {:induction false} InsertIsCleared(w: World, op: Op, sel: Selector, o: Opts, k: nat)
    requires 1 <= k <= Tries(w) && !sel.NoSelector? && Reader(sel) && op.Insert()
    ensures Guarded(Attempts(w, op, sel, o, k).w.log, if k == 1 then |w.log| + 1 else |w.log|, op)
    decreases Tries(w) - k, 1
  {
    hide Commit, Reads, Met, Exchange, Issue, Reselect, Guarded, OnlyReads, Cleared;
    if k == 1 {
      IssueTrace(w, op, sel, o, k);
    } else {
      ReselectTrace(w, sel);
      var found := Reselect(w, sel);
      if found.answer.Threw? {
        if k < Tries(w) {
          var next := Nap(found.w, k);
          InsertIsCleared(next, op, sel, o, k + 1);
          NapReads(w, found.w, k);
          GuardedJoin(|w.log|, next.log, Attempts(w, op, sel, o, k).w.log, op);
        } else {
          GuardedEmpty(|w.log|, found.w.log, op);
        }
      } else if found.answer.reply == Nothing {
        IssueTrace(found.w, op, sel, o, k);
        GuardedJoin(|w.log|, found.w.log, Attempts(w, op, sel, o, k).w.log, op);
      } else {
        GuardedEmpty(|w.log|, found.w.log, op);
      }
    }
  }
}
