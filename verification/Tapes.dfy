/** Runs in which every request replies, and tapes that begin with such a run. */
module Tapes {
  import opened Basics
  import opened Cmdb
  import opened Retry
  import opened RetryProofs
  import opened Attachments
  import opened Tags
  import Create
  import opened Planning

  /** `n` replies. */
  function Reps(n: nat): (r: seq<Fault>)
    ensures |r| == n && forall i :: 0 <= i < n ==> r[i] == Replies
    decreases n
  {
    if n == 0 then [] else [Replies] + Reps(n - 1)
  }

  lemma {:induction false} RepsPlus(a: nat, b: nat)
    ensures Reps(a + b) == Reps(a) + Reps(b)
    decreases a
  {
    if a > 0 { RepsPlus(a - 1, b); }
  }

  /** The requests sent between two worlds of one run. */
  function Asked(w: World, w': World): (n: nat)
    requires |w.trail| <= |w'.trail|
  {
    |w'.trail| - |w.trail|
  }

  /** The world with a tape that replies `n` times and then goes on. */
  function After(w: World, n: nat, rest: seq<Fault>): World { w.(tape := Reps(n) + rest) }

  function RetapeStage<T>(s: Stage<T>, rest: seq<Fault>): Stage<T> {
    match s
    case Fine(w, v) => Stage.Fine(w.(tape := rest), v)
    case Broken(w, e) => Broken(w.(tape := rest), e)
  }

  // -- one call ------------------------------------------------------------------------------------

  /** With all replies a call is one request: the tape ahead is not looked at. */
  lemma CallPads(w: World, op: Op, sel: Selector, o: Opts, rest: seq<Fault>)
    requires w.tape == []
    ensures
      var t := Call(w, op, sel, o);
      && t.w.tape == [] && Asked(w, t.w) == 1
      && Call(After(w, 1, rest), op, sel, o) == Turn(t.w.(tape := rest), t.answer)
      && (t.answer.Threw? ==> t.answer == Threw(CmdbAbort) && !Accepts(Met(w), op))
      && (t.answer.Got? && Accepts(Met(w), op) ==> t.answer.reply == Reads(Met(w), op, FreshId(w)))
      && (t.w.errors == w.errors || !Accepts(Met(w), op))
      && t.w.db == Commit(Met(w), op, FreshId(w))
      && t.w.minted == w.minted + (if op.Insert() then 1 else 0)
  {
    hide Commit, Reads, Accepts, Met;
    var v := After(w, 1, rest);
    assert Reps(1) + rest == [Replies] + rest;
    assert v.tape[1..] == rest;
    assert Attempts(w, op, sel, o, 1) == Issue(w, op, sel, o, 1);
    assert Attempts(v, op, sel, o, 1) == Issue(v, op, sel, o, 1);
    assert Met(v) == Met(w) by { SameMet(v, w); }
  }

  lemma SameMet(v: World, w: World)
    requires v.db == w.db && v.crowd == w.crowd && v.trail == w.trail
    ensures Met(v) == Met(w)
  {
  }

  /** Where a run with all replies goes on after `n` requests, the tape ahead shows the rest. */
  lemma TwoPads(w: World, n: nat, k: nat, rest: seq<Fault>)
    ensures After(w, n + k, rest) == After(w, n, Reps(k) + rest)
  {
    RepsPlus(n, k);
    assert Reps(n) + Reps(k) + rest == Reps(n) + (Reps(k) + rest);
  }

  // -- the stages of an attach ---------------------------------------------------------------------

  lemma NetPrefixPads(w: World, addr: string, dc: string, report: Option<Report>, rest: seq<Fault>)
    requires w.tape == []
    ensures
      var s := NetPrefix(w, addr, dc, report);
      && s.w.tape == [] && Asked(w, s.w) == 1 && s.Fine?
      && NetPrefix(After(w, 1, rest), addr, dc, report) == RetapeStage(s, rest)
      && s.value == First(if dc in w.db.catalog.prefixes then w.db.catalog.prefixes[dc] else [], Covering(addr))
      && s.w.db == Met(w) && s.w.errors == w.errors && s.w.minted == w.minted
  {
    CallPads(w, SelectPrefixes(dc), NoSelector, Opts("network_prefix", false, report), rest);
    hide Call, Met, First;
  }

  lemma AttachPrefixPads(w: World, addr: string, region: string, rest: seq<Fault>)
    requires w.tape == []
    ensures
      var s := AttachPrefix(w, addr, region);
      && s.w.tape == [] && s.Fine?
      && AttachPrefix(After(w, Asked(w, s.w), rest), addr, region) == RetapeStage(s, rest)
      && s.value == StorePrefix(w.db.catalog, region, addr)
      && (Quiet(w) ==> s.w.db == w.db) && s.w.errors == w.errors && s.w.minted == w.minted
  {
    hide NetPrefix, Call;
    var op := SelectDatacenter(region);
    CallPads(w, op, NoSelector, LOOKUP_DC, rest);
    var t := Call(w, op, NoSelector, LOOKUP_DC);
    if region in w.db.catalog.datacenters {
      var dc := w.db.catalog.datacenters[region];
      hide NetPrefix;
      NetPrefixPads(t.w, addr, dc, None, rest);
      CallPads(w, op, NoSelector, LOOKUP_DC, Reps(1) + rest);
      TwoPads(w, 1, 1, rest);
    }
    hide Call, Met, First;
  }

  lemma ReusePads(w: World, m: AttachMsg, mac: Option<string>, v: EndpointView, rest: seq<Fault>)
    requires w.tape == []
    ensures
      var s := Reuse(w, m, mac, v);
      && s.w.tape == [] && s == Stage.Fine(s.w, Target(v.row.id))
      && Reuse(After(w, Asked(w, s.w), rest), m, mac, v) == RetapeStage(s, rest)
  {
    CallPads(w, UpdateEndpoint(v.row.id, FillMac(v, mac), FillNotes(v, m.network)), NoSelector, RAISES_ENDPOINT_UPDATE, rest);
    hide Call, Met;
    assert Reps(0) + rest == rest;
  }

  lemma CreatePads(w: World, m: AttachMsg, uuid: string, port: AttachPort, server: Id, endpoints: seq<EndpointView>, rest: seq<Fault>)
    requires w.tape == []
    ensures
      var s := Attachments.Create(w, m, uuid, port, server, endpoints);
      && s.w.tape == [] && s == Stage.Fine(s.w, Target(FreshId(w))) && Asked(w, s.w) == 1
      && Attachments.Create(After(w, 1, rest), m, uuid, port, server, endpoints) == RetapeStage(s, rest)
  {
    var op := NewEndpoint(server, m, port.mac, endpoints);
    CallPads(w, op, AttachEndpoint(port.addr, uuid, server, op.name), RAISES_ENDPOINT, rest);
    hide Call, Met;
  }

  lemma AttachCardPads(w: World, m: AttachMsg, uuid: string, port: AttachPort, server: Id, endpoints: seq<EndpointView>, rest: seq<Fault>)
    requires w.tape == []
    ensures
      var s := AttachCard(w, m, uuid, port, server, endpoints);
      && s.w.tape == [] && s.Fine? && s.value.Target?
      && AttachCard(After(w, Asked(w, s.w), rest), m, uuid, port, server, endpoints) == RetapeStage(s, rest)
  {
    hide Reuse, Attachments.Create, Choose;
    match Choose(endpoints, port.mac)
    case Some(v) => ReusePads(w, m, port.mac, v, rest);
    case None => CreatePads(w, m, uuid, port, server, endpoints, rest);
  }
}
