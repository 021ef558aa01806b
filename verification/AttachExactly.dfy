/** Exactly when attach keeps its promises under every tape, refused probes included. */
module AttachExactly {
  import opened Basics
  import opened BondNames
  import opened Cmdb
  import opened Planning
  import opened Retry
  import opened RetryProofs
  import opened StoreFacts
  import opened Attachments
  import opened AttachProofs
  import opened AttachConverges
  import opened Invariants
  import opened Tapes
  import opened EveryTape

  // -- what the rest of a tape makes of the address insert --------------------------------------------

  /** A reply: one row. */
  lemma LandsReplied(w: World, uuid: string, op: Op, rest: seq<Fault>)
    requires Quiet(w) && op.InsertIp? && w.tape == []
    ensures
      var o := AttachIp(w.(tape := [Replies]), uuid, op.addr, op);
      && Landings(w, o.w, op, 1) && o.w.tape == []
      && AttachIp(w.(tape := [Replies] + rest), uuid, op.addr, op).w == o.w.(tape := rest)
  {
    var sel := AttachedIp(op.addr, uuid);
    CallPads(w, op, sel, RAISES_IP, rest);
    CallPads(w, op, sel, RAISES_IP, []);
    assert After(w, 1, rest) == w.(tape := [Replies] + rest) && After(w, 1, []) == w.(tape := [Replies]);
    var t := Call(w, op, sel, RAISES_IP);
    hide Call, Reads;
    assert t.w.(tape := []) == t.w;
    NoLanding(t.w, t.w, op);
    OneMoreLanding(w, t.w, t.w, op, 0);
  }

  /** A lost reply, and no attempt left: one row, and the delivery failed. */
  lemma LandsLost(w: World, uuid: string, op: Op, rest: seq<Fault>)
    requires Quiet(w) && op.InsertIp? && Tries(w) == 1
    ensures
      var o := AttachIp(w.(tape := [ReplyLost]), uuid, op.addr, op);
      && Landings(w, o.w, op, 1) && o.w.tape == []
      && AttachIp(w.(tape := [ReplyLost] + rest), uuid, op.addr, op).w == o.w.(tape := rest)
  {
    hide Reads, Commit;
    var sel := AttachedIp(op.addr, uuid);
    var u, v := w.(tape := [ReplyLost]), w.(tape := [ReplyLost] + rest);
    assert u.tape[1..] == [] && v.tape[1..] == rest;
    assert Attempts(u, op, sel, RAISES_IP, 1) == Issue(u, op, sel, RAISES_IP, 1);
    assert Attempts(v, op, sel, RAISES_IP, 1) == Issue(v, op, sel, RAISES_IP, 1);
    var sent := Exchange(u, op);
    NoLanding(sent.w, sent.w, op);
    OneMoreLanding(u, sent.w, sent.w, op, 0);
  }

  /** A lost reply, a refused probe, and a reply: two rows. */
  lemma LandsTwice(w: World, uuid: string, op: Op)
    requires Quiet(w) && op.InsertIp? && Tries(w) >= 2 && w.tape == [ReplyLost, Rejected(DataError), Replies]
    ensures Landings(w, AttachIp(w, uuid, op.addr, op).w, op, 2)
  {
    hide Commit, Reads;
    var sel := AttachedIp(op.addr, uuid);
    var lost := Exchange(w, op);
    var w1 := Nap(lost.w, 1);
    assert Attempts(w, op, sel, RAISES_IP, 1) == Issue(w, op, sel, RAISES_IP, 1);
    assert Issue(w, op, sel, RAISES_IP, 1) == Attempts(w1, op, sel, RAISES_IP, 2);
    RejectedProbe(w1, op.addr, uuid, DataError);
    var probed := Reselect(w1, sel);
    ReselectReads(w1, sel);
    assert Attempts(w1, op, sel, RAISES_IP, 2) == Issue(probed.w, op, sel, RAISES_IP, 2);
    var again := Exchange(probed.w, op);
    NoLanding(again.w, again.w, op);
    OneMoreLanding(probed.w, again.w, again.w, op, 0);
    SameLandings(lost.w, probed.w, again.w, op, 1);
    OneMoreLanding(w, lost.w, again.w, op, 1);
  }

  // -- at most one row, over any number of deliveries ---------------------------------------------------

  ghost predicate Found(w: World, m: AttachMsg, s: Server) {
    && Quiet(w) && Sound(w) && m.instance.Some? && m.port.Some?
    && First(w.db.servers, Matching(None, Some(m.instance.value))) == Some(s)
  }

  /** Further deliveries only ever add rows. */
  lemma {:induction false} HostNeverShrinks(w: World, m: AttachMsg, s: Server, from: nat, n: nat)
    requires Found(w, m, s) && from <= n
    ensures Found(Deliveries(w, m, n).w, m, s)
    ensures |OnHost(Deliveries(w, m, from).w.db, m.port.value.addr, m.instance.value)|
         <= |OnHost(Deliveries(w, m, n).w.db, m.port.value.addr, m.instance.value)|
    decreases n
  {
    hide Attach, OnHost, Sound, First, Matching;
    if n > from {
      HostNeverShrinks(w, m, s, from, n - 1);
      var j := AnyDelivery(Deliveries(w, m, n - 1).w, m, s);
    } else if n > 0 {
      HostNeverShrinks(w, m, s, n - 1, n - 1);
      var j := AnyDelivery(Deliveries(w, m, n - 1).w, m, s);
    }
  }

  lemma OneDelivery(w: World, m: AttachMsg)
    ensures Deliveries(w, m, 1).w == Attach(w, m).w
  {
    assert Deliveries(w, m, 0).w == w;
    hide Attach;
  }

  /** The rows that land at the end of a leading tape are on the host. */
  lemma LandedOnHost(w: World, m: AttachMsg, s: Server, w': World, k: nat)
    requires Found(w, m, s) && Landings(Reached(w, m, s.id), w', IpOp(w, m, s.id), k)
    ensures |OnHost(w'.db, m.port.value.addr, m.instance.value)| == |OnHost(w.db, m.port.value.addr, m.instance.value)| + k
  {
    var uuid, port := m.instance.value, m.port.value;
    Reaches(w, m, s, []);
    FoundServer(w.db, uuid, s, w.session, w.minted);
    CardedReady(w.db, m, port, s.id, uuid, w.session, w.minted);
    hide Reached, Carded, CardKey, MintedWithCard, OnHost, EndpointOnUuid, ServerHasUuid, Attach, AttachIp, Lead, ViewOf, UsedKinds, StorePrefix, Keyed, Unborn, First, Matching, IpRows;
    var r := Reached(w, m, s.id);
    RowsOnHost(r.db, IpOp(w, m, s.id), r.session, r.minted, k, uuid);
  }

  /** The tape still ahead plays no part in what landed. */
  lemma AnyTapeAhead(r: World, tape: seq<Fault>, w': World, op: Op, k: nat)
    ensures Landings(r.(tape := tape), w', op, k) <==> Landings(r, w', op, k)
  {
  }

  lemma TwiceInOne(w: World, m: AttachMsg, s: Server)
    requires Found(w, m, s) && Tries(w) >= 2
    ensures
      var tape := Lead(w, m, s.id) + [ReplyLost, Rejected(DataError), Replies];
      var o := Attach(w.(tape := tape), m);
      && Landings(Reached(w, m, s.id), o.w, IpOp(w, m, s.id), 2)
      && |OnHost(o.w.db, m.port.value.addr, m.instance.value)| == |OnHost(w.db, m.port.value.addr, m.instance.value)| + 2
  {
    hide Reached, Lead, IpOp, OnHost, Attach, AttachIp, Landings, Sound, First, Matching;
    var rest := [ReplyLost, Rejected(DataError), Replies];
    Reaches(w, m, s, rest);
    var r := Reached(w, m, s.id).(tape := rest);
    LandsTwice(r, m.instance.value, IpOp(w, m, s.id));
    var o := Attach(w.(tape := Lead(w, m, s.id) + rest), m);
    AnyTapeAhead(Reached(w, m, s.id), rest, o.w, IpOp(w, m, s.id), 2);
    LandedOnHost(w, m, s, o.w, 2);
  }

  /** The world after a delivery whose address insert landed unseen, with no attempt left. */
  ghost function Unseen(w: World, m: AttachMsg, s: Server): World
    requires m.instance.Some? && m.port.Some?
  {
    AttachIp(Reached(w, m, s.id).(tape := [ReplyLost]), m.instance.value, m.port.value.addr, IpOp(w, m, s.id)).w
  }

  lemma UnseenLanding(w: World, m: AttachMsg, s: Server, rest: seq<Fault>)
    requires Found(w, m, s) && Tries(w) == 1
    ensures
      var u := Unseen(w, m, s);
      && Attach(w.(tape := Lead(w, m, s.id) + ([ReplyLost] + rest)), m).w == u.(tape := rest)
      && |OnHost(u.db, m.port.value.addr, m.instance.value)| == |OnHost(w.db, m.port.value.addr, m.instance.value)| + 1
      && Found(u, m, s) && u.tape == [] && u.budget == w.budget
  {
    hide Reached, Lead, IpOp, OnHost, Attach, AttachIp, Landings, Sound, First, Matching;
    Reaches(w, m, s, [ReplyLost] + rest);
    Reaches(w, m, s, [ReplyLost]);
    var r := Reached(w, m, s.id);
    LandsLost(r, m.instance.value, IpOp(w, m, s.id), rest);
    LandedOnHost(w, m, s, Unseen(w, m, s), 1);
    StartAnywhere(w, m, s);
    var j := AnyDelivery(w.(tape := Lead(w, m, s.id) + [ReplyLost]), m, s);
  }

  lemma StartAnywhere(w: World, m: AttachMsg, s: Server)
    requires Found(w, m, s)
    ensures forall tape :: Found(w.(tape := tape), m, s)
  {
    hide First, Matching;
  }

  /**
   Exactly when the address is inserted at most once under every tape: for no delivery,
   or for one delivery with a single attempt. A second attempt, or a second delivery,
   may follow a row that landed unseen and be told by a refused probe that it is not there.
   */
  lemma OnceExactly(w: World, m: AttachMsg, s: Server, n: nat)
    requires Found(w, m, s) && OnHost(w.db, m.port.value.addr, m.instance.value) == []
    ensures
      (forall tape: seq<Fault> :: |OnHost(Deliveries(w.(tape := tape), m, n).w.db, m.port.value.addr, m.instance.value)| <= 1)
      <==> n == 0 || (n == 1 && Tries(w) == 1)
  {
    hide Reached, Lead, IpOp, OnHost, Attach, AttachIp, Landings, Sound, First, Matching, Deliveries;
    StartAnywhere(w, m, s);
    if n == 0 || (n == 1 && Tries(w) == 1) {
      forall tape: seq<Fault> ensures |OnHost(Deliveries(w.(tape := tape), m, n).w.db, m.port.value.addr, m.instance.value)| <= 1 {
        AtMostOneTry(w.(tape := tape), m, s, n);
      }
    } else if Tries(w) >= 2 {
      var tape := Lead(w, m, s.id) + [ReplyLost, Rejected(DataError), Replies];
      TwiceInOne(w, m, s);
      OneDelivery(w.(tape := tape), m);
      HostNeverShrinks(w.(tape := tape), m, s, 1, n);
    } else {
      SecondDelivery(w, m, s, n);
    }
  }

  lemma AtMostOneTry(w: World, m: AttachMsg, s: Server, n: nat)
    requires Found(w, m, s) && OnHost(w.db, m.port.value.addr, m.instance.value) == []
    requires n == 0 || (n == 1 && Tries(w) == 1)
    ensures |OnHost(Deliveries(w, m, n).w.db, m.port.value.addr, m.instance.value)| <= 1
  {
    hide Attach, OnHost, Sound, First, Matching;
    if n == 1 {
      OneDelivery(w, m);
      var j := AnyDelivery(w, m, s);
    }
  }

  /** A row landed unseen in the first delivery, and again in the second. */
  lemma SecondDelivery(w: World, m: AttachMsg, s: Server, n: nat)
    requires Found(w, m, s) && Tries(w) == 1 && n >= 2
    ensures
      var u := Unseen(w, m, s);
      var tape := Lead(w, m, s.id) + ([ReplyLost] + (Lead(u, m, s.id) + [Replies]));
      |OnHost(Deliveries(w.(tape := tape), m, n).w.db, m.port.value.addr, m.instance.value)| >= 2
  {
    hide Reached, Lead, IpOp, OnHost, Attach, AttachIp, Landings, Sound, First, Matching, Unseen, Deliveries;
    var u := Unseen(w, m, s);
    var next := Lead(u, m, s.id) + [Replies];
    UnseenLanding(w, m, s, next);
    StartAnywhere(w, m, s);
    var v := w.(tape := Lead(w, m, s.id) + ([ReplyLost] + next));
    TwoDeliveries(v, m);
    Reaches(u, m, s, [Replies]);
    var r := Reached(u, m, s.id);
    LandsReplied(r, m.instance.value, IpOp(u, m, s.id), []);
    LandedOnHost(u, m, s, Attach(u.(tape := next), m).w, 1);
    HostNeverShrinks(v, m, s, 2, n);
  }

  lemma TwoDeliveries(w: World, m: AttachMsg)
    ensures Deliveries(w, m, 2).w == Attach(Attach(w, m).w, m).w
  {
    OneDelivery(w, m);
    hide Attach;
  }
}
