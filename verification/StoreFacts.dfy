/** Facts about single requests and calls that every protocol proof uses. */
module StoreFacts {
  import opened Basics
  import opened Cmdb
  import opened Retry
  import opened RetryProofs

  // -- keys --------------------------------------------------------------------------------

  ghost predicate Born(id: Id, session: nat, minted: nat) { id.session == session ==> id.n < minted }

  /** A request refers only to keys that exist already. */
  ghost predicate RefsBorn(op: Op, session: nat, minted: nat) {
    && (op.InsertEndpoint? ==> Born(op.serverId, session, minted))
    && (op.InsertIp? ==> Born(op.endpointId, session, minted))
  }

  lemma {:induction false} FilterKeyed<T(!new)>(s: seq<T>, p: T -> bool, key: T -> Id)
    requires forall i, j :: 0 <= i < j < |s| ==> key(s[i]) != key(s[j])
    ensures forall i, j :: 0 <= i < j < |Filter(s, p)| ==> key(Filter(s, p)[i]) != key(Filter(s, p)[j])
  {
    if s != [] {
      FilterKeyed(s[1..], p, key);
      if p(s[0]) {
        forall x | x in Filter(s[1..], p) ensures key(x) != key(s[0]) {
          var i :| 0 <= i < |s[1..]| && s[1..][i] == x;
          assert s[i + 1] == x;
        }
      }
    }
  }

  ghost predicate Landed(db: Db, op: Op, session: nat, minted: nat) {
    var db' := Commit(db, op, Id(session, minted));
    Keyed(db') && Unborn(db', session, if op.Insert() then minted + 1 else minted)
  }

  ghost predicate Ready(db: Db, op: Op, session: nat, minted: nat) {
    Keyed(db) && Unborn(db, session, minted) && RefsBorn(op, session, minted)
  }

  lemma UpdateServersSound(db: Db, op: Op, session: nat, minted: nat)
    requires Ready(db, op, session, minted) && op.UpdateServers?
    ensures Landed(db, op, session, minted)
  {
    hide Map;
    var db' := Commit(db, op, Id(session, minted));
    assert forall i :: 0 <= i < |db.servers| ==> db'.servers[i].id == db.servers[i].id && db.servers[i] in db.servers;
  }

  lemma UpdateEndpointSound(db: Db, op: Op, session: nat, minted: nat)
    requires Ready(db, op, session, minted) && op.UpdateEndpoint?
    ensures Landed(db, op, session, minted)
  {
    hide Map;
    var db' := Commit(db, op, Id(session, minted));
    assert forall i :: 0 <= i < |db.endpoints| ==>
      && db'.endpoints[i].id == db.endpoints[i].id && db'.endpoints[i].serverId == db.endpoints[i].serverId
      && db.endpoints[i] in db.endpoints;
  }

  lemma InsertSound(db: Db, op: Op, session: nat, minted: nat)
    requires Ready(db, op, session, minted) && op.Insert()
    ensures Landed(db, op, session, minted)
  {
  }

  lemma DeleteSound(db: Db, op: Op, session: nat, minted: nat)
    requires Ready(db, op, session, minted)
    requires op.DeleteServer? || op.DeleteRail? || op.SweepEndpoints? || op.DeleteAttachedIps?
    ensures Landed(db, op, session, minted)
  {
    match op
    case DeleteServer(s) => FilterKeyed(db.servers, NotServer(s), (s: Server) => s.id);
    case DeleteRail(r) => FilterKeyed(db.rails, NotRail(r), (x: Rail) => x.id);
    case SweepEndpoints(u) => FilterKeyed(db.endpoints, KeptOnSweep(db, u), (e: Endpoint) => e.id);
    case DeleteAttachedIps(addr, u) => FilterKeyed(db.ips, NotAttachedTo(db, addr, u), (ip: Ip) => ip.id);
  }

  /** Landing a request keeps the keys distinct, and no key is handed out twice. */
  lemma CommitSound(db: Db, op: Op, session: nat, minted: nat)
    requires Ready(db, op, session, minted)
    ensures Landed(db, op, session, minted)
  {
    if op.UpdateServers? {
      UpdateServersSound(db, op, session, minted);
    } else if op.UpdateEndpoint? {
      UpdateEndpointSound(db, op, session, minted);
    } else if op.Insert() {
      InsertSound(db, op, session, minted);
    } else if op.Write() {
      DeleteSound(db, op, session, minted);
    } else {
      SelectOnlyReads(db, op, Id(session, minted), Id(session, minted));
    }
  }

  // -- calls, packaged --------------------------------------------------------------------------

  /** A read leaves the store alone and, when it replies, tells what is in it. */
  lemma ReadCall(w: World, op: Op, o: Opts)
    requires Quiet(w) && !op.Write()
    ensures
      var t := Call(w, op, NoSelector, o);
      && t.w.db == w.db && t.w.minted == w.minted && Quiet(t.w) && Reported(w, t, o)
      && (t.answer.Threw? ==> t.answer.exn == Transport || (o.raises && t.answer.exn == CmdbAbort))
      && (t.answer.Got? ==> t.answer.reply == Reads(w.db, op, FreshId(w)) || (!o.raises && t.answer.reply == Nothing))
  {
    hide Commit, Reads, Attempts;
    PlainCall(w, op, o, 1);
    SelectOnlyReads(w.db, op, FreshId(w), FreshId(w));
  }

  /** The attach probe, when no probe is rejected. */
  lemma ProbeCall(w: World, addr: string, uuid: string)
    requires Quiet(w)
    ensures
      var t := Call(w, SelectAttachedIp(addr, uuid), NoSelector, PROBE);
      && t.w.db == w.db && t.w.minted == w.minted && Quiet(t.w) && t.w.errors == w.errors
      && (t.answer.Threw? ==> t.answer.exn == Transport)
      && (t.answer.Got? && Honest(t.w.log) ==> t.answer.reply == Reads(w.db, SelectAttachedIp(addr, uuid), FreshId(w)))
  {
    hide Commit, Reads, Attempts;
    ReadCall(w, SelectAttachedIp(addr, uuid), PROBE);
    HonestProbe(w, addr, uuid, 1);
  }

  /** An update or a delete: in effect it happened once or not at all. */
  lemma WriteCall(w: World, op: Op, o: Opts)
    requires Quiet(w) && !op.Insert()
    ensures
      var t := Call(w, op, NoSelector, o);
      && t.w.minted == w.minted && Quiet(t.w) && Reported(w, t, o)
      && (t.w.db == w.db || t.w.db == Commit(w.db, op, FreshId(w)))
      && (t.answer.Threw? ==> t.answer.exn == Transport || (o.raises && t.answer.exn == CmdbAbort))
      && (t.answer.Got? && (o.raises || t.answer.reply != Nothing) ==> t.w.db == Commit(w.db, op, FreshId(w)))
      && (t.answer.Got? && t.answer.reply != Nothing ==> Accepts(w.db, op))
      && (t.answer == Got(Nothing) && op.Write() && o.report.Some? ==> t.w.errors != w.errors)
  {
    hide Commit, Reads, Attempts;
    PlainCall(w, op, o, 1);
  }

  /** A guarded insert. */
  lemma InsertCall(w: World, op: Op, sel: Selector, o: Opts)
    requires Quiet(w) && op.Insert() && Reader(sel) && Detects(sel, w.db, op)
    requires Trusted(sel, Call(w, op, sel, o).w.log)
    ensures InsertResult(w, op, sel, o, Call(w, op, sel, o)) && Quiet(Call(w, op, sel, o).w)
  {
    hide Commit, Reads, Attempts, Finds;
    InsertAtMostOnce(w, op, sel, o, 1);
  }
}
