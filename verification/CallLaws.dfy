/**
 How long a call goes on. Every law here is stated in the attempts the message was
 given and the fates its requests meet: a call ends at the first request that is
 answered or refused, and gives up only when it has used every attempt.
 */
module CallLaws {
  import opened Basics
  import opened Cmdb
  import opened Retry
  import opened RetryProofs

  /** Nobody heard: the request or its reply was lost. */
  predicate Mute(f: Fault) { f == NotSent || f == ReplyLost }

  predicate AllMute(fates: seq<Fault>) { forall i :: 0 <= i < |fates| ==> Mute(fates[i]) }

  /** How many of the next fates are mute, before one is not; at most `n` are looked at. */
  function Mutes(tape: seq<Fault>, n: nat): (k: nat)
    ensures k <= n && k <= |tape| && AllMute(tape[..k])
    ensures k < n && k < |tape| ==> !Mute(tape[k])
  {
    if n == 0 || tape == [] || !Mute(tape[0]) then 0
    else
      var k := Mutes(tape[1..], n - 1);
      assert tape[..k + 1] == [tape[0]] + tape[1..][..k];
      k + 1
  }

  /** The seconds slept, in order. */
  function Rests(log: seq<Event>): seq<real> {
    if log == [] then []
    else
      var last := log[|log| - 1];
      Rests(log[..|log| - 1]) + if last.Slept? then [last.seconds] else []
  }

  function Dropped(tape: seq<Fault>, n: nat): seq<Fault> { if n <= |tape| then tape[n..] else [] }

  /** Past its end every request replies. */
  function FateAt(tape: seq<Fault>, k: nat): Fault { if k < |tape| then tape[k] else Replies }

  /** Exactly `n` requests went out, all of them this one, and met the next fates of the tape. */
  ghost predicate Sends(w: World, w': World, op: Op, n: nat) {
    && w.trail <= w'.trail && |w'.trail| == |w.trail| + n && w'.tape == Dropped(w.tape, n)
    && (forall i :: |w.trail| <= i < |w'.trail| ==> w'.trail[i].op == op && w'.trail[i].fault == FateAt(w.tape, i - |w.trail|))
    && w'.crowd == w.crowd
    && (Quiet(w) && !op.Write() ==>
          w'.db == w.db && w'.minted == w.minted && forall i :: |w.trail| <= i < |w'.trail| ==> w'.trail[i].met == w.db)
  }

  /** The sleep before retry number `i`: `i` seconds and at most half a second of jitter. */
  predicate Backoff(i: int, seconds: real) { i as real <= seconds <= i as real + 0.5 }

  /** Exactly `n` sleeps, growing by one second each, with at most half a second of jitter. */
  ghost predicate Waits(w: World, w': World, first: nat, n: nat) {
    var before, after := Rests(w.log), Rests(w'.log);
    && before <= after && |after| == |before| + n
    && forall j :: |before| <= j < |after| ==> Backoff(first + j - |before|, after[j])
  }

  /** What a failure that is not retried ends in. */
  ghost predicate Refused(w: World, t: Turn, o: Opts) {
    && t.answer == (if o.raises then Threw(CmdbAbort) else Got(Nothing))
    && |t.w.errors| == |w.errors| + (if o.report.Some? then 1 else 0) && w.errors <= t.w.errors
    && (o.report.Some? ==>
          var e := t.w.errors[|w.errors|];
          e.field == o.field && e.mark == o.report.value.mark && e.listed == o.report.value.listed)
  }

  /** The answer is the last request's: what the store it met holds, or its refusal. */
  ghost predicate Heard(w: World, t: Turn, op: Op, o: Opts)
    requires |t.w.trail| > 0
  {
    var last := t.w.trail[|t.w.trail| - 1];
    if last.fault == Replies && Accepts(last.met, op)
    then t.answer == Got(Reads(last.met, op, last.id)) && t.w.errors == w.errors
    else !Mute(last.fault) && Refused(w, t, o)
  }

  lemma RestsOne(log: seq<Event>, e: Event)
    ensures Rests(log + [e]) == Rests(log) + if e.Slept? then [e.seconds] else []
  {
    assert (log + [e])[..|log|] == log;
  }

  /** One request: it moves the tape by one, sleeps not at all, and is heard unless its fate is mute. */
  lemma OneSent(w: World, op: Op)
    ensures
      var t := Exchange(w, op);
      && Sends(w, t.w, op, 1) && Rests(t.w.log) == Rests(w.log) && t.w.errors == w.errors && t.w.budget == w.budget
      && t.w.trail[|w.trail|].fault == Fate(w)
      && (t.answer == Threw(Transport) <==> Mute(Fate(w)))
      && (if Fate(w) == Replies && Accepts(t.w.trail[|w.trail|].met, op)
          then t.answer == Got(Reads(t.w.trail[|w.trail|].met, op, t.w.trail[|w.trail|].id))
          else Mute(Fate(w)) || (t.answer.Threw? && t.answer.exn.Perm?))
  {
    hide Reads, Commit, Met, Accepts;
    var t := Exchange(w, op);
    RestsOne(w.log, Sent(op, Fate(w), t.answer));
    if Quiet(w) && !op.Write() { SelectOnlyReads(w.db, op, FreshId(w), FreshId(w)); }
  }

  lemma OneNap(w: World, k: nat)
    ensures
      var w' := Nap(w, k);
      w' == w.(dice := w'.dice, log := w'.log) && Waits(w, w', k, 1)
  {
    var w' := Nap(w, k);
    RestsOne(w.log, w'.log[|w.log|]);
  }

  lemma OneRefused(w: World, o: Opts)
    ensures Refused(w, Fail(w, o), o) && Fail(w, o).w == w.(errors := Fail(w, o).w.errors)
  {
  }

  lemma SendsOn(w: World, w1: World, w2: World, w': World, op: Op, k: nat, n: nat, m: nat)
    requires Sends(w, w1, op, 1) && w2 == w1.(dice := w2.dice, log := w2.log) && Sends(w2, w', op, n)
    requires Rests(w1.log) == Rests(w.log) && Waits(w1, w2, k, 1) && Waits(w2, w', k + 1, m)
    ensures Sends(w, w', op, n + 1) && Waits(w, w', k, m + 1) && |w'.trail| > 0
  {
    assert Dropped(w.tape, n + 1) == Dropped(Dropped(w.tape, 1), n);
    hide Backoff, Rests;
    var before, mid, after := Rests(w.log), Rests(w2.log), Rests(w'.log);
    forall j | |before| <= j < |after| ensures Backoff(k + j - |before|, after[j]) {
      if j == |before| { assert after[j] == mid[j]; }
    }
  }

  /** From attempt number `a` on, with `left` attempts left. */
  ghost predicate PlainEnd(w: World, t: Turn, op: Op, o: Opts, a: nat, left: nat)
    requires left >= 1
  {
    var k := Mutes(w.tape, left);
    if k < left then Sends(w, t.w, op, k + 1) && Waits(w, t.w, a, k) && Heard(w, t, op, o)
    else Sends(w, t.w, op, left) && Waits(w, t.w, a, left - 1) && t.answer == Threw(Transport) && t.w.errors == w.errors
  }

  lemma {:induction false} PlainEnds(w: World, op: Op, o: Opts, a: nat)
    requires 1 <= a <= Tries(w)
    ensures PlainEnd(w, Attempts(w, op, NoSelector, o, a), op, o, a, Tries(w) - a + 1)
    decreases Tries(w) - a
  {
    hide Reads, Commit, Met, Accepts, Exchange, Nap, Fail, Sends, Waits, PlainEnd, Heard, Refused;
    var sent, t := Exchange(w, op), Attempts(w, op, NoSelector, o, a);
    assert t == Issue(w, op, NoSelector, o, a);
    OneSent(w, op);
    if Mute(Fate(w)) && a < Tries(w) {
      var next := Nap(sent.w, a);
      OneNap(sent.w, a);
      PlainEnds(next, op, o, a + 1);
      PlainOn(w, sent.w, next, t, op, o, a, Tries(w) - a);
    } else {
      PlainLast(w, t, op, o, a, Tries(w) - a + 1);
    }
  }

  /** The last attempt, or one that is heard. */
  lemma PlainLast(w: World, t: Turn, op: Op, o: Opts, a: nat, left: nat)
    requires left >= 1 && (left == 1 || !Mute(Fate(w)))
    requires
      var sent := Exchange(w, op);
      t == if sent.answer.Threw? && sent.answer.exn.Perm? then Fail(sent.w, o) else sent
    ensures PlainEnd(w, t, op, o, a, left)
  {
    hide Reads, Commit, Met, Accepts, Exchange, Fail, Rests, Extends;
    OneSent(w, op);
    OneRefused(Exchange(w, op).w, o);
  }

  lemma OneMoreMute(w: World, w1: World, op: Op, left: nat)
    requires Sends(w, w1, op, 1) && Mute(Fate(w))
    ensures Mutes(w.tape, left + 1) == Mutes(w1.tape, left) + 1
  {
  }

  lemma HeardOn(w: World, w': World, t: Turn, op: Op, o: Opts)
    requires |t.w.trail| > 0 && Heard(w', t, op, o) && w'.errors == w.errors
    ensures Heard(w, t, op, o)
  {
    hide Accepts, Reads;
  }

  lemma PlainOn(w: World, w1: World, w2: World, t: Turn, op: Op, o: Opts, a: nat, left: nat)
    requires Sends(w, w1, op, 1) && w2 == w1.(dice := w2.dice, log := w2.log) && Mute(Fate(w)) && left >= 1
    requires Rests(w1.log) == Rests(w.log) && Waits(w1, w2, a, 1) && w1.errors == w.errors
    requires PlainEnd(w2, t, op, o, a + 1, left)
    ensures PlainEnd(w, t, op, o, a, left + 1)
  {
    hide Sends, Waits, Mutes, Heard, Extends, Rests, Accepts;
    var k := Mutes(w2.tape, left);
    OneMoreMute(w, w1, op, left);
    if k < left {
      SendsOn(w, w1, w2, t.w, op, a, k + 1, k);
      HeardOn(w, w2, t, op, o);
    } else {
      SendsOn(w, w1, w2, t.w, op, a, left, left - 1);
    }
  }

  /**
   A call without selector, for every tape: it sends its request up to the first fate that
   is not mute, and that one decides; only when as many fates as it has attempts are mute
   does it raise the transport failure, after exactly that many requests. Before retry
   number `i` it sleeps `i` seconds and at most half a second more.
   */
  lemma CallExactly(w: World, op: Op, o: Opts)
    ensures
      var n := if w.budget < 1 then 1 else w.budget;
      var k := Mutes(w.tape, n);
      var t := Call(w, op, NoSelector, o);
      if k < n then Sends(w, t.w, op, k + 1) && Waits(w, t.w, 1, k) && Heard(w, t, op, o)
      else Sends(w, t.w, op, n) && Waits(w, t.w, 1, n - 1) && t.answer == Threw(Transport) && t.w.errors == w.errors
  {
    hide Attempts, Sends, Waits, Heard, Mutes;
    PlainEnds(w, op, o, 1);
  }

  // -- guarded inserts ---------------------------------------------------------------------------

  /** These were the next fates, one for each request sent. */
  ghost predicate Fared(w: World, w': World, fates: seq<Fault>) {
    && w.tape == fates + w'.tape && |w'.trail| == |w.trail| + |fates|
    && Quiet(w') && w'.budget == w.budget && w'.session == w.session
  }

  /** A probe that got through within `n` attempts: it was answered, or it was refused. */
  predicate Through(fates: seq<Fault>, n: nat) {
    1 <= |fates| <= n && AllMute(fates[..|fates| - 1]) && !Mute(fates[|fates| - 1])
  }

  function LastOf(fates: seq<Fault>): Fault
    requires fates != []
  {
    fates[|fates| - 1]
  }

  /** What a probe that got through reports of this store; a refused one reports nothing. */
  ghost function Probed(db: Db, addr: string, uuid: string, last: Fault): Reply {
    if last == Replies then Reads(db, SelectAttachedIp(addr, uuid), Id(0, 0)) else Nothing
  }

  /** On these fates the re-select fails: a bare select unless it is answered, a probe when none of its attempts got through. */
  ghost predicate Blind(sel: Selector, db: Db, fates: seq<Fault>, n: nat) {
    match sel
    case NoSelector => false
    case Once(_) => |fates| == 1 && fates[0] != Replies
    case AttachedIp(_, _) => |fates| == n && AllMute(fates)
    case AttachEndpoint(addr, uuid, _, _) =>
      || (|fates| == n && AllMute(fates))
      || (&& fates != [] && Through(fates[..|fates| - 1], n) && LastOf(fates) != Replies
          && !Probed(db, addr, uuid, LastOf(fates[..|fates| - 1])).IpRef?)
  }

  /** On these fates the re-select reports this of the store. */
  ghost predicate Tells(sel: Selector, db: Db, fates: seq<Fault>, n: nat, row: Reply) {
    match sel
    case NoSelector => false
    case Once(query) => fates == [Replies] && row == Reads(db, query, Id(0, 0))
    case AttachedIp(addr, uuid) => Through(fates, n) && row == Probed(db, addr, uuid, LastOf(fates))
    case AttachEndpoint(addr, uuid, server, name) =>
      || (&& Through(fates, n) && Probed(db, addr, uuid, LastOf(fates)).IpRef?
          && var ip := Probed(db, addr, uuid, LastOf(fates)); row == EndpointRef(ip.onEndpoint, ip.onName, true))
      || (&& fates != [] && Through(fates[..|fates| - 1], n) && LastOf(fates) == Replies
          && !Probed(db, addr, uuid, LastOf(fates[..|fates| - 1])).IpRef?
          && row == Reads(db, SelectEndpointByName(server, name), Id(0, 0)))
  }

  lemma {:induction false} MutesAre(look: seq<Fault>, rest: seq<Fault>, n: nat)
    requires AllMute(look) && |look| <= n && (|look| == n || rest == [] || !Mute(rest[0]))
    ensures Mutes(look + rest, n) == |look|
  {
    if look == [] {
      assert look + rest == rest;
    } else {
      assert (look + rest)[1..] == look[1..] + rest;
      MutesAre(look[1..], rest, n - 1);
    }
  }

  lemma ProbeBlind(w: World, addr: string, uuid: string, look: seq<Fault>, rest: seq<Fault>)
    requires Quiet(w) && w.tape == look + rest && |look| == Tries(w) && AllMute(look)
    ensures
      var t := Attempts(w, SelectAttachedIp(addr, uuid), NoSelector, PROBE, 1);
      t.answer == Threw(Transport) && Fared(w, t.w, look) && t.w.db == w.db && t.w.minted == w.minted && t.w.errors == w.errors
  {
    hide Attempts, Reads, Accepts, Heard, Waits, Rests;
    MutesAre(look, rest, Tries(w));
    PlainEnds(w, SelectAttachedIp(addr, uuid), PROBE, 1);
    assert Dropped(w.tape, |look|) == rest;
    hide Mutes;
  }

  lemma ProbeThrough(w: World, addr: string, uuid: string, look: seq<Fault>, rest: seq<Fault>)
    requires Quiet(w) && w.tape == look + rest && Through(look, Tries(w))
    ensures
      var t := Attempts(w, SelectAttachedIp(addr, uuid), NoSelector, PROBE, 1);
      && t.answer == Got(Probed(w.db, addr, uuid, LastOf(look)))
      && Fared(w, t.w, look) && t.w.db == w.db && t.w.minted == w.minted && t.w.errors == w.errors
  {
    hide Commit;
    hide Attempts, Reads, Waits, Rests;
    var q, k := SelectAttachedIp(addr, uuid), |look| - 1;
    assert look + rest == look[..k] + ([look[k]] + rest);
    MutesAre(look[..k], [look[k]] + rest, Tries(w));
    PlainEnds(w, q, PROBE, 1);
    assert Dropped(w.tape, |look|) == rest;
    hide Mutes;
    var t := Attempts(w, q, NoSelector, PROBE, 1);
    var last := t.w.trail[|t.w.trail| - 1];
    SelectOnlyReads(w.db, q, last.id, Id(0, 0));
  }

  lemma FaredOn(w: World, w1: World, w2: World, a: seq<Fault>, b: seq<Fault>)
    requires Fared(w, w1, a) && Fared(w1, w2, b)
    ensures Fared(w, w2, a + b)
  {
    assert a + (b + w2.tape) == a + b + w2.tape;
  }

  /** A bare select: answered, or it throws. */
  lemma SelectFares(w: World, q: Op, f: Fault, rest: seq<Fault>)
    requires Quiet(w) && !q.Write() && w.tape == [f] + rest
    ensures
      var t := Exchange(w, q);
      && Fared(w, t.w, [f]) && t.w.db == w.db && t.w.minted == w.minted && t.w.errors == w.errors
      && (if f == Replies then t.answer == Got(Reads(w.db, q, Id(0, 0)))
          else t.answer.Threw? && (t.answer.exn.Perm? || t.answer.exn == Transport))
  {
    hide Reads, Commit;
    SelectOnlyReads(w.db, q, FreshId(w), Id(0, 0));
  }

  /** The second select of the attach endpoint's re-select, after a probe that found nothing. */
  lemma NameFares(w: World, addr: string, uuid: string, server: Id, name: string, look: seq<Fault>, rest: seq<Fault>)
    requires Quiet(w) && w.tape == look + rest && look != [] && Through(look[..|look| - 1], Tries(w))
    requires !Probed(w.db, addr, uuid, LastOf(look[..|look| - 1])).IpRef?
    ensures
      var t := Reselect(w, AttachEndpoint(addr, uuid, server, name));
      && Fared(w, t.w, look) && t.w.db == w.db && t.w.minted == w.minted && t.w.errors == w.errors
      && (if LastOf(look) == Replies then t.answer == Got(Reads(w.db, SelectEndpointByName(server, name), Id(0, 0)))
          else t.answer.Threw? && (t.answer.exn.Perm? || t.answer.exn == Transport))
  {
    hide Attempts, Exchange, Reads, Fared, Extends, Through, Probed, Lands;
    var front, last := look[..|look| - 1], LastOf(look);
    assert look + rest == front + ([last] + rest) && look == front + [last];
    ProbeThrough(w, addr, uuid, front, [last] + rest);
    var probe := Attempts(w, SelectAttachedIp(addr, uuid), NoSelector, PROBE, 1);
    FaredTape(w, probe.w, front, [last] + rest);
    SelectFares(probe.w, SelectEndpointByName(server, name), last, rest);
    FaredOn(w, probe.w, Exchange(probe.w, SelectEndpointByName(server, name)).w, front, [last]);
  }

  lemma FaredTape(w: World, w': World, fates: seq<Fault>, rest: seq<Fault>)
    requires Fared(w, w', fates) && w.tape == fates + rest
    ensures w'.tape == rest && Quiet(w') && Tries(w') == Tries(w) && w'.session == w.session
  {
    assert w'.tape == w.tape[|fates|..] && rest == w.tape[|fates|..];
  }

  lemma ReselectBlind(w: World, sel: Selector, look: seq<Fault>, rest: seq<Fault>)
    requires Quiet(w) && Reader(sel) && w.tape == look + rest && Blind(sel, w.db, look, Tries(w))
    ensures
      var t := Reselect(w, sel);
      && t.answer.Threw? && (t.answer.exn.Perm? || t.answer.exn == Transport)
      && Fared(w, t.w, look) && t.w.db == w.db && t.w.minted == w.minted && t.w.errors == w.errors
  {
    hide Attempts, Exchange, Reads, Fared, Extends;
    match sel
    case Once(q) =>
      assert look == [look[0]];
      SelectFares(w, q, look[0], rest);
    case AttachedIp(addr, uuid) => ProbeBlind(w, addr, uuid, look, rest);
    case AttachEndpoint(addr, uuid, server, name) =>
      if |look| == Tries(w) && AllMute(look) {
        ProbeBlind(w, addr, uuid, look, rest);
      } else {
        NameFares(w, addr, uuid, server, name, look, rest);
      }
  }

  lemma ReselectTells(w: World, sel: Selector, look: seq<Fault>, rest: seq<Fault>, row: Reply)
    requires Quiet(w) && Reader(sel) && w.tape == look + rest && Tells(sel, w.db, look, Tries(w), row)
    ensures
      var t := Reselect(w, sel);
      && t.answer == Got(row)
      && Fared(w, t.w, look) && t.w.db == w.db && t.w.minted == w.minted && t.w.errors == w.errors
  {
    hide Attempts, Exchange, Reads, Fared, Extends, Probed;
    match sel
    case Once(q) => SelectFares(w, q, Replies, rest);
    case AttachedIp(addr, uuid) => ProbeThrough(w, addr, uuid, look, rest);
    case AttachEndpoint(addr, uuid, server, name) =>
      if Through(look, Tries(w)) {
        ProbeThrough(w, addr, uuid, look, rest);
      } else {
        NameFares(w, addr, uuid, server, name, look, rest);
      }
  }

  /** One round of a guarded insert: what its re-select met, and what its request met if one was sent. */
  datatype Round = Round(look: seq<Fault>, sent: Option<Fault>)

  /** The store, and the keys handed out. */
  datatype Standing = Standing(db: Db, minted: nat)

  function FatesOf(r: Round): seq<Fault> { r.look + if r.sent.Some? then [r.sent.value] else [] }

  function AllFates(rounds: seq<Round>): seq<Fault> {
    if rounds == [] then [] else FatesOf(rounds[0]) + AllFates(rounds[1..])
  }

  /** What an insert leaves behind: its row, if it landed. */
  function Left(session: nat, op: Op, s: Standing, sent: Option<Fault>): Standing {
    if sent.Some? && (sent.value == Replies || sent.value == ReplyLost)
    then Standing(Commit(s.db, op, Id(session, s.minted)), s.minted + 1) else s
  }

  function LeftBy(session: nat, op: Op, s: Standing, rounds: seq<Round>): Standing
    decreases |rounds|
  {
    if rounds == [] then s else LeftBy(session, op, Left(session, op, s, rounds[0].sent), rounds[1..])
  }

  /** A round that settles nothing: the re-select failed, or it found nothing and nobody heard the insert. */
  ghost predicate Lost(sel: Selector, db: Db, r: Round, n: nat) {
    if r.sent.None? then Blind(sel, db, r.look, n) else Tells(sel, db, r.look, n, Nothing) && Mute(r.sent.value)
  }

  ghost predicate AllLost(sel: Selector, session: nat, op: Op, s: Standing, rounds: seq<Round>, n: nat)
    decreases |rounds|
  {
    rounds == [] || (Lost(sel, s.db, rounds[0], n) && AllLost(sel, session, op, Left(session, op, s, rounds[0].sent), rounds[1..], n))
  }

  function Stands(w: World): Standing { Standing(w.db, w.minted) }

  /** The first request, or one after a re-select that found nothing. */
  lemma InsertFares(w: World, op: Op, f: Fault, rest: seq<Fault>)
    requires Quiet(w) && op.Insert() && w.tape == [f] + rest
    ensures
      var t := Exchange(w, op);
      && Fared(w, t.w, [f]) && Stands(t.w) == Left(w.session, op, Stands(w), Some(f)) && t.w.errors == w.errors
      && (t.answer == Threw(Transport) <==> Mute(f))
      && (f == Replies ==> t.answer == Got(Reads(w.db, op, FreshId(w))))
      && (f.Rejected? ==> t.answer == Threw(Perm(f.why)))
  {
    hide Reads, Commit;
  }

  /** After these rounds the call goes on as if from here. */
  ghost predicate Resumes(w: World, v: World, op: Op, sel: Selector, o: Opts, a: nat, rounds: seq<Round>)
    requires 1 <= a <= Tries(w)
  {
    && Fared(w, v, AllFates(rounds)) && v.errors == w.errors && Stands(v) == LeftBy(w.session, op, Stands(w), rounds)
    && if a + |rounds| <= Tries(v)
       then Attempts(w, op, sel, o, a) == Attempts(v, op, sel, o, a + |rounds|)
       else Attempts(w, op, sel, o, a).w == v && Attempts(w, op, sel, o, a).answer.Threw?
            && (Attempts(w, op, sel, o, a).answer.exn.Perm? || Attempts(w, op, sel, o, a).answer.exn == Transport)
  }

  lemma NoRounds(w: World, op: Op, sel: Selector, o: Opts, a: nat)
    requires Quiet(w) && 1 <= a <= Tries(w)
    ensures Resumes(w, w, op, sel, o, a, [])
  {
    assert [] + w.tape == w.tape;
    hide Attempts;
  }

  lemma OneRound(r: Round, session: nat, op: Op, s: Standing)
    ensures AllFates([r]) == FatesOf(r) && LeftBy(session, op, s, [r]) == Left(session, op, s, r.sent)
  {
    hide Left, FatesOf;
    assert [r][1..] == [];
    assert LeftBy(session, op, Left(session, op, s, r.sent), []) == Left(session, op, s, r.sent);
  }

  /** One lost round, and the call is at its next attempt, or at its end. */
  lemma RoundLost(w: World, op: Op, sel: Selector, o: Opts, a: nat, r: Round, rest: seq<Fault>) returns (v: World)
    requires Quiet(w) && op.Insert() && !sel.NoSelector? && Reader(sel) && 2 <= a <= Tries(w)
    requires w.tape == FatesOf(r) + rest && Lost(sel, w.db, r, Tries(w))
    ensures Resumes(w, v, op, sel, o, a, [r]) && v.tape == rest
  {
    hide Fared, Blind, Tells, Commit, AllFates, LeftBy, Extends, Reselect, Attempts, Nap;
    OneRound(r, w.session, op, Stands(w));
    if r.sent.None? {
      assert r.look + [] == r.look;
      v := LookLost(w, op, sel, o, a, r.look, rest);
    } else {
      v := InsertLost(w, op, sel, o, a, r.look, r.sent.value, rest);
    }
  }

  /** Where a call stands after a round that threw: at its next attempt, or at its end. */
  ghost predicate GoesOn(w: World, v: World, op: Op, sel: Selector, o: Opts, a: nat)
    requires 1 <= a <= Tries(w)
  {
    var t := Attempts(w, op, sel, o, a);
    if a + 1 <= Tries(v) then t == Attempts(v, op, sel, o, a + 1)
    else t.w == v && t.answer.Threw? && (t.answer.exn.Perm? || t.answer.exn == Transport)
  }

  lemma LookLost(w: World, op: Op, sel: Selector, o: Opts, a: nat, look: seq<Fault>, rest: seq<Fault>) returns (v: World)
    requires Quiet(w) && !sel.NoSelector? && Reader(sel) && 2 <= a <= Tries(w)
    requires w.tape == look + rest && Blind(sel, w.db, look, Tries(w))
    ensures Fared(w, v, look) && v.errors == w.errors && Stands(v) == Stands(w) && v.tape == rest && GoesOn(w, v, op, sel, o, a)
  {
    hide Reselect, Reads, Commit, Fared, Blind, Nap, Extends, Issue;
    var found := Reselect(w, sel);
    ReselectBlind(w, sel, look, rest);
    FaredTape(w, found.w, look, rest);
    Napped(w, found.w, a, look);
    v := if a < Tries(w) then Nap(found.w, a) else found.w;
  }

  lemma InsertLost(w: World, op: Op, sel: Selector, o: Opts, a: nat, look: seq<Fault>, f: Fault, rest: seq<Fault>) returns (v: World)
    requires Quiet(w) && op.Insert() && !sel.NoSelector? && Reader(sel) && 2 <= a <= Tries(w)
    requires w.tape == look + [f] + rest && Tells(sel, w.db, look, Tries(w), Nothing) && Mute(f)
    ensures
      && Fared(w, v, look + [f]) && v.errors == w.errors && Stands(v) == Left(w.session, op, Stands(w), Some(f))
      && v.tape == rest && GoesOn(w, v, op, sel, o, a)
  {
    hide Reselect, Exchange, Reads, Commit, Fared, Tells, Nap, Extends;
    var found := Reselect(w, sel);
    assert look + [f] + rest == look + ([f] + rest);
    ReselectTells(w, sel, look, [f] + rest, Nothing);
    FaredTape(w, found.w, look, [f] + rest);
    InsertFares(found.w, op, f, rest);
    var sent := Exchange(found.w, op);
    FaredOn(w, found.w, sent.w, look, [f]);
    FaredTape(found.w, sent.w, [f], rest);
    Napped(w, sent.w, a, look + [f]);
    v := if a < Tries(w) then Nap(sent.w, a) else sent.w;
    assert Attempts(w, op, sel, o, a) == Issue(found.w, op, sel, o, a);
    assert sent.answer == Threw(Transport);
  }

  lemma FaredIs(w: World, w': World, fates: seq<Fault>)
    requires Fared(w, w', fates)
    ensures w.tape == fates + w'.tape
  {
  }

  lemma Napped(w: World, w1: World, a: nat, fates: seq<Fault>)
    requires Fared(w, w1, fates)
    ensures
      var v := Nap(w1, a);
      Fared(w, v, fates) && v.errors == w1.errors && Stands(v) == Stands(w1) && v.tape == w1.tape && Tries(v) == Tries(w1)
  {
  }

  lemma {:induction false} RoundsLost(w: World, op: Op, sel: Selector, o: Opts, a: nat, rounds: seq<Round>, rest: seq<Fault>) returns (v: World)
    requires Quiet(w) && op.Insert() && !sel.NoSelector? && Reader(sel) && 2 <= a && a + |rounds| <= Tries(w) + 1 && a <= Tries(w)
    requires w.tape == AllFates(rounds) + rest && AllLost(sel, w.session, op, Stands(w), rounds, Tries(w))
    ensures Resumes(w, v, op, sel, o, a, rounds) && v.tape == rest
    decreases |rounds|
  {
    hide Attempts, Lost, Fared, Extends, FatesOf, Left;
    if rounds == [] {
      NoRounds(w, op, sel, o, a);
      v := w;
      assert [] + rest == rest;
    } else {
      var r := rounds[0];
      assert w.tape == FatesOf(r) + (AllFates(rounds[1..]) + rest);
      var u := RoundLost(w, op, sel, o, a, r, AllFates(rounds[1..]) + rest);
      OneRound(r, w.session, op, Stands(w));
      FaredTape(w, u, FatesOf(r), AllFates(rounds[1..]) + rest);
      if a < Tries(w) {
        v := RoundsLost(u, op, sel, o, a + 1, rounds[1..], rest);
        RoundsJoin(w, u, v, op, sel, o, a, rounds);
      } else {
        assert rounds == [r];
        v := u;
      }
    }
  }

  lemma RoundsJoin(w: World, u: World, v: World, op: Op, sel: Selector, o: Opts, a: nat, rounds: seq<Round>)
    requires rounds != [] && 1 <= a < Tries(w) && Resumes(w, u, op, sel, o, a, [rounds[0]])
    requires Tries(u) == Tries(w) && u.session == w.session && Resumes(u, v, op, sel, o, a + 1, rounds[1..])
    ensures Resumes(w, v, op, sel, o, a, rounds)
  {
    hide Attempts, Fared, Left, FatesOf, Extends;
    var r := rounds[0];
    OneRound(r, w.session, op, Stands(w));
    FaredOn(w, u, v, AllFates([r]), AllFates(rounds[1..]));
    FaredTape(u, v, AllFates(rounds[1..]), v.tape) by { FaredIs(u, v, AllFates(rounds[1..])); }
    FaredTape(w, u, FatesOf(r), u.tape) by { FaredIs(w, u, FatesOf(r)); }
  }

  /** The first request and the rounds after it: no one heard the request, and each round was lost. */
  ghost predicate Unsettled(w: World, op: Op, sel: Selector, first: Fault, rounds: seq<Round>, rest: seq<Fault>) {
    var n := if w.budget < 1 then 1 else w.budget;
    && Quiet(w) && op.Insert() && !sel.NoSelector? && Reader(sel) && |rounds| < n
    && w.tape == [first] + AllFates(rounds) + rest && Mute(first)
    && AllLost(sel, w.session, op, Left(w.session, op, Stands(w), Some(first)), rounds, n)
  }

  /** The store after them. */
  ghost function SoFar(w: World, op: Op, first: Fault, rounds: seq<Round>): Standing {
    LeftBy(w.session, op, Left(w.session, op, Stands(w), Some(first)), rounds)
  }

  /** After them the call stands at its next attempt, or at its end. */
  ghost predicate StandsAt(w: World, v: World, op: Op, sel: Selector, o: Opts, first: Fault, rounds: seq<Round>, rest: seq<Fault>) {
    && Fared(w, v, [first] + AllFates(rounds)) && v.errors == w.errors && Stands(v) == SoFar(w, op, first, rounds)
    && v.tape == rest && Quiet(v) && Tries(v) == Tries(w) && v.session == w.session
    && var t := Call(w, op, sel, o);
       if |rounds| + 2 <= Tries(v) then t == Attempts(v, op, sel, o, |rounds| + 2)
       else t.w == v && t.answer.Threw? && (t.answer.exn.Perm? || t.answer.exn == Transport)
  }

  lemma FirstLost(w: World, op: Op, sel: Selector, o: Opts, f: Fault, rest: seq<Fault>) returns (v: World)
    requires Quiet(w) && op.Insert() && w.tape == [f] + rest && Mute(f)
    ensures
      && Fared(w, v, [f]) && v.errors == w.errors && Stands(v) == Left(w.session, op, Stands(w), Some(f))
      && v.tape == rest && GoesOn(w, v, op, sel, o, 1)
  {
    hide Exchange, Reads, Commit, Fared, Nap, Extends;
    InsertFares(w, op, f, rest);
    var sent := Exchange(w, op);
    FaredTape(w, sent.w, [f], rest);
    Napped(w, sent.w, 1, [f]);
    v := if 1 < Tries(w) then Nap(sent.w, 1) else sent.w;
    assert Attempts(w, op, sel, o, 1) == Issue(w, op, sel, o, 1);
  }

  lemma Reached(w: World, op: Op, sel: Selector, o: Opts, first: Fault, rounds: seq<Round>, rest: seq<Fault>) returns (v: World)
    requires Unsettled(w, op, sel, first, rounds, rest)
    ensures StandsAt(w, v, op, sel, o, first, rounds, rest)
  {
    hide Attempts, Fared, Extends, Left, AllLost, AllFates, LeftBy;
    assert w.tape == [first] + (AllFates(rounds) + rest);
    var u := FirstLost(w, op, sel, o, first, AllFates(rounds) + rest);
    FaredTape(w, u, [first], AllFates(rounds) + rest);
    if Tries(w) == 1 {
      v := u;
      NoneLost(w.session, op, Stands(u), rounds);
      assert [first] + [] == [first];
    } else {
      v := RoundsLost(u, op, sel, o, 2, rounds, rest);
      FaredOn(w, u, v, [first], AllFates(rounds));
      FaredTape(u, v, AllFates(rounds), rest);
    }
  }

  lemma NoneLost(session: nat, op: Op, s: Standing, rounds: seq<Round>)
    requires rounds == []
    ensures AllFates(rounds) == [] && LeftBy(session, op, s, rounds) == s
  {
  }

  /**
   A guarded insert gives up only after as many rounds as it has attempts, whatever the
   re-selects that failed among them; then it raises, and nothing more is sent.
   */
  lemma GuardedGivesUp(w: World, op: Op, sel: Selector, o: Opts, first: Fault, rounds: seq<Round>, rest: seq<Fault>)
    requires Unsettled(w, op, sel, first, rounds, rest) && |rounds| + 1 == if w.budget < 1 then 1 else w.budget
    ensures
      var t := Call(w, op, sel, o);
      && t.answer.Threw? && (t.answer.exn.Perm? || t.answer.exn == Transport)
      && Fared(w, t.w, [first] + AllFates(rounds)) && Stands(t.w) == SoFar(w, op, first, rounds) && t.w.errors == w.errors
  {
    hide Call, Fared, Left, LeftBy, AllFates, AllLost, Attempts;
    var v := Reached(w, op, sel, o, first, rounds, rest);
  }

  /** While attempts are left it goes on: a row the re-select finds ends it, with nothing sent again. */
  lemma GuardedFinds(w: World, op: Op, sel: Selector, o: Opts, first: Fault, rounds: seq<Round>, rest: seq<Fault>, look: seq<Fault>, tail: seq<Fault>, row: Reply)
    requires Unsettled(w, op, sel, first, rounds, rest) && |rounds| + 1 < w.budget
    requires rest == look + tail && row != Nothing && Tells(sel, SoFar(w, op, first, rounds).db, look, w.budget, row)
    ensures
      var t := Call(w, op, sel, o);
      && t.answer == Got(row) && t.w.errors == w.errors
      && Fared(w, t.w, [first] + AllFates(rounds) + look) && Stands(t.w) == SoFar(w, op, first, rounds)
  {
    hide Call, Fared, Left, LeftBy, AllFates, AllLost, Tells, Reselect, Extends;
    var v := Reached(w, op, sel, o, first, rounds, rest);
    ReselectTells(v, sel, look, tail, row);
    FaredOn(w, v, Reselect(v, sel).w, [first] + AllFates(rounds), look);
  }

  /** And where it finds nothing the insert is sent again, and an answer or a refusal ends it. */
  lemma GuardedSends(w: World, op: Op, sel: Selector, o: Opts, first: Fault, rounds: seq<Round>, rest: seq<Fault>, look: seq<Fault>, f: Fault, tail: seq<Fault>)
    requires Unsettled(w, op, sel, first, rounds, rest) && |rounds| + 1 < w.budget
    requires rest == look + ([f] + tail) && !Mute(f) && Tells(sel, SoFar(w, op, first, rounds).db, look, w.budget, Nothing)
    ensures
      var t, s := Call(w, op, sel, o), SoFar(w, op, first, rounds);
      && Fared(w, t.w, [first] + AllFates(rounds) + look + [f]) && Stands(t.w) == Left(w.session, op, s, Some(f))
      && (if f == Replies then t.answer == Got(Reads(s.db, op, Id(w.session, s.minted))) && t.w.errors == w.errors else Refused(w, t, o))
  {
    hide Call, Fared, Left, LeftBy, AllFates, AllLost, Tells, Reselect, Exchange, Reads, Fail, Refused, Extends;
    var v := Reached(w, op, sel, o, first, rounds, rest);
    ReselectTells(v, sel, look, [f] + tail, Nothing);
    var found := Reselect(v, sel);
    FaredTape(v, found.w, look, [f] + tail);
    InsertFares(found.w, op, f, tail);
    var sent := Exchange(found.w, op);
    FaredOn(w, v, found.w, [first] + AllFates(rounds), look);
    FaredOn(w, found.w, sent.w, [first] + AllFates(rounds) + look, [f]);
    assert Call(w, op, sel, o) == Issue(found.w, op, sel, o, |rounds| + 2);
    if f.Rejected? {
      OneRefused(sent.w, o);
      RefusedThere(w, sent.w, Fail(sent.w, o), o);
      FailFares(w, sent.w, o, [first] + AllFates(rounds) + look + [f]);
    }
  }

  lemma RefusedThere(w: World, w1: World, t: Turn, o: Opts)
    requires Refused(w1, t, o) && w1.errors == w.errors
    ensures Refused(w, t, o)
  {
  }

  lemma FailFares(w: World, w1: World, o: Opts, fates: seq<Fault>)
    requires Fared(w, w1, fates)
    ensures Fared(w, Fail(w1, o).w, fates) && Stands(Fail(w1, o).w) == Stands(w1)
  {
  }
}
