/**
 Many messages on one store: whatever order their requests land in, each message finds
 and leaves its own rows as if its requests had been the only ones.
 */
module Weaving {
  import opened Basics
  import opened Cmdb
  import opened Retry
  import opened RetryProofs
  import opened StoreFacts
  import opened Locality
  import opened Guarantee

  // -- the requests of one message among many ------------------------------------------------------

  function By(p: Party): Request -> bool { (r: Request) => r.party == p }
  function Inserting(): Request -> bool { (r: Request) => r.op.Insert() }

  /** This message's requests, in their order. */
  function Only(rs: seq<Request>, p: Party): seq<Request> { Filter(rs, By(p)) }

  /** The next key of a message that has landed these requests. */
  function NextKey(p: Party, mine: seq<Request>): nat { p.minted + |Filter(mine, Inserting())| }

  lemma OnlySnoc(rs: seq<Request>, r: Request, p: Party)
    ensures Only(rs + [r], p) == if r.party == p then Only(rs, p) + [r] else Only(rs, p)
  {
    FilterSnoc(rs, r, By(p));
  }

  lemma OnlyTwice(rs: seq<Request>, p: Party, q: Party)
    ensures Only(Only(rs, p), q) == if q == p then Only(rs, p) else []
  {
    if q == p { FilterAll(Only(rs, p), By(q)); } else { FilterNone(Only(rs, p), By(q)); }
  }

  lemma NextKeySnoc(p: Party, mine: seq<Request>, r: Request)
    ensures NextKey(p, mine + [r]) == NextKey(p, mine) + if r.op.Insert() then 1 else 0
  {
    FilterSnoc(mine, r, Inserting());
  }

  /** A server to be deleted bears no key that some other message will be given. */
  ghost predicate Elder(us: set<Party>, p: Party, server: Id) {
    forall q :: q in us && q != p ==> Born(server, q.session, q.minted)
  }

  /** What a message alone on the store may ask for after these requests of its own. */
  ghost predicate Proper(start: Db, us: set<Party>, mine: seq<Request>, r: Request) {
    && LocalTo(Apply(start, mine), r.party, r.op)
    && r.id == Id(r.party.session, NextKey(r.party, mine))
    && (r.op.DeleteServer? ==> Elder(us, r.party, r.op.server))
  }

  /** Each request is one its message, alone on the store, may ask for after its own earlier ones. */
  ghost predicate Woven(start: Db, us: set<Party>, rs: seq<Request>) {
    rs == [] ||
      var front, last := rs[..|rs| - 1], rs[|rs| - 1];
      Woven(start, us, front) && last.party in us && Proper(start, us, Only(front, last.party), last)
  }

  /** Messages on a store of keyed rows: their names, their sessions and their rows are disjoint. */
  ghost predicate Company(start: Db, us: set<Party>) {
    && Keyed(start)
    && (forall p :: p in us ==> Unborn(start, p.session, p.minted))
    && (forall p, q :: p in us && q in us && p != q ==> Apart(start, p, q))
  }

  // -- one message's account of the shared store ---------------------------------------------------

  /** A server row that is not this message's was there before it, or is another's new one. */
  ghost predicate Stranger(x: Db, us: set<Party>, p: Party, t: Server) {
    || (exists u :: u in x.servers && u.id == t.id && !Belongs(u, p))
    || (exists q :: q in us && q != p && t.id.session == q.session && t.id.n >= q.minted)
  }

  /** The shared store `y`, and the store `x` this message alone would have left: its rows agree. */
  ghost predicate Agree(x: Db, y: Db, us: set<Party>, p: Party, minted: nat) {
    && ViewFor(y, p) == ViewFor(x, p) && y.catalog == x.catalog
    && Unborn(y, p.session, minted)
    && (forall t :: t in y.servers && !Belongs(t, p) ==> Stranger(x, us, p, t))
    && (forall r :: r in y.rails ==> r in x.rails)
  }

  ghost predicate AllAgree(start: Db, us: set<Party>, rs: seq<Request>) {
    var y := Apply(start, rs);
    && Keyed(y)
    && (forall p :: p in us ==> Agree(Apply(start, Only(rs, p)), y, us, p, NextKey(p, Only(rs, p))))
    && (forall p, q :: p in us && q in us && p != q ==> Apart(y, p, q))
  }

  /** A request that is local where its message is alone is local on the shared store. */
  lemma LocalThere(x: Db, y: Db, us: set<Party>, p: Party, minted: nat, op: Op)
    requires Agree(x, y, us, p, minted) && LocalTo(x, p, op) && (op.DeleteServer? ==> Elder(us, p, op.server))
    ensures LocalTo(y, p, op)
  {
    assert ServersOf(x, p) == ServersOf(y, p) && CardsOf(x, p) == CardsOf(y, p);
    hide View, Mine, MyCards, InScope, Unborn;
  }

  /** A message's own request: the same answer and the same effect on its rows as alone. */
  lemma AnswersAlike(x: Db, y: Db, p: Party, op: Op, n: nat)
    requires ViewFor(x, p) == ViewFor(y, p) && LocalTo(x, p, op) && LocalTo(y, p, op)
    requires Keyed(x) && Keyed(y) && Unborn(x, p.session, n) && Unborn(y, p.session, n)
    ensures
      var id := Id(p.session, n);
      && Reads(x, op, id) == Reads(y, op, id) && Accepts(x, op) == Accepts(y, op)
      && ViewFor(Commit(x, op, id), p) == ViewFor(Commit(y, op, id), p)
  {
    hide Commit, Reads, View, Local, Keyed, Unborn, Effect;
    ReadsLocal(x, p.scope, p.session, op, Id(p.session, n));
    ReadsLocal(y, p.scope, p.session, op, Id(p.session, n));
    CommitLocal(x, p.scope, p.session, op, n);
    CommitLocal(y, p.scope, p.session, op, n);
  }

  // -- one more request ----------------------------------------------------------------------------

  lemma LocalBorn(db: Db, p: Party, op: Op, minted: nat)
    requires LocalTo(db, p, op) && Unborn(db, p.session, minted)
    ensures RefsBorn(op, p.session, minted)
  {
    if op.InsertEndpoint? { MineMeans(db, p.scope, p.session, op.serverId); }
    if op.InsertIp? { MyCardsMeans(db, p.scope, p.session, op.endpointId); }
    hide Mine, MyCards;
  }

  lemma LocalRefs(db: Db, p: Party, op: Op)
    requires LocalTo(db, p, op)
    ensures op.InsertEndpoint? ==> exists s :: s in db.servers && s.id == op.serverId
    ensures op.InsertIp? ==> exists e :: e in db.endpoints && e.id == op.endpointId
  {
    if op.InsertEndpoint? { MineMeans(db, p.scope, p.session, op.serverId); }
    if op.InsertIp? { MyCardsMeans(db, p.scope, p.session, op.endpointId); }
    hide Mine, MyCards;
  }

  /** Keys of one session stay unused when another's request lands. */
  lemma UnbornOther(db: Db, op: Op, id: Id, session: nat, minted: nat)
    requires Unborn(db, session, minted) && id.session != session
    requires op.InsertEndpoint? ==> exists s :: s in db.servers && s.id == op.serverId
    requires op.InsertIp? ==> exists e :: e in db.endpoints && e.id == op.endpointId
    ensures Unborn(Commit(db, op, id), session, minted)
  {
    var db' := Commit(db, op, id);
    if op.UpdateServers? {
      assert forall i :: 0 <= i < |db'.servers| ==> db'.servers[i].id == db.servers[i].id && db.servers[i] in db.servers;
    } else if op.UpdateEndpoint? {
      SameCardKeys(db, op, id);
      hide Commit, Mutated, Filled;
    }
  }

  lemma SameCardKeys(db: Db, op: Op, id: Id)
    requires op.UpdateEndpoint?
    ensures
      var db' := Commit(db, op, id);
      && db'.servers == db.servers && db'.rails == db.rails && db'.ips == db.ips
      && (forall e :: e in db'.endpoints ==> exists f :: f in db.endpoints && f.id == e.id && f.serverId == e.serverId)
  {
    var db' := Commit(db, op, id);
    forall e | e in db'.endpoints ensures exists f :: f in db.endpoints && f.id == e.id && f.serverId == e.serverId {
      var i :| 0 <= i < |db'.endpoints| && db'.endpoints[i] == e;
      assert db.endpoints[i] in db.endpoints;
    }
  }

  /** A row this request does not touch stays. */
  lemma UntouchedStays(x: Db, p: Party, op: Op, id: Id, u: Server)
    requires LocalTo(x, p, op) && u in x.servers && !Belongs(u, p)
    ensures u in Commit(x, op, id).servers
  {
    if op.UpdateServers? && Accepted(x, op.mutation) {
      var rows := Map(x.servers, Mutated(op.whereHostname, op.whereUuid, op.mutation));
      MatchInScope(u, p.scope, p.session, op.whereHostname, op.whereUuid);
      var i :| 0 <= i < |x.servers| && x.servers[i] == u;
      assert rows[i] == u && rows[i] in rows;
    }
  }

  /** Strangers after a request of the message itself, on both stores. */
  lemma StrangersOwn(x: Db, y: Db, us: set<Party>, p: Party, minted: nat, op: Op, id: Id)
    requires Agree(x, y, us, p, minted) && LocalTo(x, p, op) && LocalTo(y, p, op) && id.session == p.session
    ensures forall t :: t in Commit(y, op, id).servers && !Belongs(t, p) ==> Stranger(Commit(x, op, id), us, p, t)
    ensures forall r :: r in Commit(y, op, id).rails ==> r in Commit(x, op, id).rails
  {
    hide InScope, Local, View, Unborn;
    forall t | t in Commit(y, op, id).servers && !Belongs(t, p) ensures Stranger(Commit(x, op, id), us, p, t) {
      hide Commit;
      RowLeft(y, p, op, id, t);
      assert t in y.servers;
      if u :| u in x.servers && u.id == t.id && !Belongs(u, p) {
        UntouchedStays(x, p, op, id, u);
      }
    }
  }

  /** Strangers after a request of another message, on the shared store only. */
  lemma StrangersOther(x: Db, y: Db, us: set<Party>, p: Party, minted: nat, q: Party, op: Op, n: nat)
    requires Agree(x, y, us, p, minted) && LocalTo(y, q, op) && q in us && q != p && n >= q.minted && Apart(y, q, p)
    ensures forall t :: t in Commit(y, op, Id(q.session, n)).servers && !Belongs(t, p) ==> Stranger(x, us, p, t)
    ensures forall r :: r in Commit(y, op, Id(q.session, n)).rails ==> r in x.rails
  {
    hide InScope, Local, View, Unborn;
    var id := Id(q.session, n);
    forall t | t in Commit(y, op, id).servers && !Belongs(t, p) ensures Stranger(x, us, p, t) {
      hide Commit;
      RowLeft(y, q, op, id, t);
      if s :| LeftBy(y, q, s, t) {
        assert s in y.servers && !Belongs(s, p);
        assert Stranger(x, us, p, s);
      }
    }
  }

  /** The message's own request lands on both stores. */
  lemma AgreeOwn(x: Db, y: Db, us: set<Party>, p: Party, n: nat, op: Op)
    requires Agree(x, y, us, p, n) && LocalTo(x, p, op) && (op.DeleteServer? ==> Elder(us, p, op.server))
    requires Keyed(x) && Keyed(y) && Unborn(x, p.session, n)
    ensures
      var id := Id(p.session, n);
      Agree(Commit(x, op, id), Commit(y, op, id), us, p, if op.Insert() then n + 1 else n)
  {
    hide View, Commit, Local, Unborn, Keyed, InScope, Reads;
    LocalThere(x, y, us, p, n, op);
    AnswersAlike(x, y, p, op, n);
    LocalBorn(y, p, op, n);
    CommitSound(y, op, p.session, n);
    StrangersOwn(x, y, us, p, n, op, Id(p.session, n));
    hide Stranger;
  }

  /** Another message's request lands on the shared store. */
  lemma AgreeOther(x: Db, y: Db, us: set<Party>, p: Party, minted: nat, q: Party, op: Op, n: nat)
    requires Agree(x, y, us, p, minted) && LocalTo(y, q, op) && q in us && q != p && n >= q.minted
    requires Keyed(y) && Apart(y, q, p)
    ensures Agree(x, Commit(y, op, Id(q.session, n)), us, p, minted)
  {
    hide View, Commit, Local, Unborn, Keyed, InScope;
    CommitForeign(y, q, p, op, Id(q.session, n));
    LocalRefs(y, q, op);
    UnbornOther(y, op, Id(q.session, n), p.session, minted);
    StrangersOther(x, y, us, p, minted, q, op, n);
    hide Stranger;
  }

  // -- any number of requests ------------------------------------------------------------------------

  lemma {:induction false} OnlyWoven(start: Db, us: set<Party>, rs: seq<Request>, p: Party)
    requires Woven(start, us, rs)
    ensures Woven(start, us, Only(rs, p))
  {
    hide Proper;
    if rs != [] {
      var front, last := rs[..|rs| - 1], rs[|rs| - 1];
      assert rs == front + [last];
      OnlyWoven(start, us, front, p);
      OnlySnoc(front, last, p);
      if last.party == p {
        OnlyTwice(front, p, p);
        var mine := Only(front, p);
        assert (mine + [last])[..|mine + [last]| - 1] == mine;
      }
    }
  }

  lemma ApplySnoc(start: Db, rs: seq<Request>, r: Request)
    ensures Apply(start, rs + [r]) == Commit(Apply(start, rs), r.op, r.id)
  {
    assert (rs + [r])[..|rs + [r]| - 1] == rs;
  }

  lemma AgreeAtStart(start: Db, us: set<Party>, p: Party)
    requires Company(start, us) && p in us
    ensures Agree(start, start, us, p, p.minted)
  {
    hide View, InScope;
  }

  lemma NoneAgree(start: Db, us: set<Party>)
    requires Company(start, us)
    ensures AllAgree(start, us, [])
  {
    hide Agree, Keyed, Unborn;
    forall p | p in us ensures Agree(Apply(start, Only([], p)), Apply(start, []), us, p, NextKey(p, Only([], p))) {
      AgreeAtStart(start, us, p);
    }
  }

  /** The sender's part of one more request. */
  lemma SenderAgrees(start: Db, us: set<Party>, front: seq<Request>, r: Request)
    requires AllAgree(start, us, front) && AllAgree(start, us, Only(front, r.party))
    requires r.party in us && Proper(start, us, Only(front, r.party), r)
    ensures Agree(Apply(start, Only(front + [r], r.party)), Apply(start, front + [r]), us, r.party, NextKey(r.party, Only(front + [r], r.party)))
    ensures LocalTo(Apply(start, front), r.party, r.op)
  {
    hide View, InScope, Commit, Apart, Keyed, Stranger;
    var p, mine := r.party, Only(front, r.party);
    OnlySnoc(front, r, p);
    NextKeySnoc(p, mine, r);
    ApplySnoc(start, mine, r);
    ApplySnoc(start, front, r);
    OnlyTwice(front, p, p);
    hide Apply, Only, NextKey;
    var x, y := Apply(start, mine), Apply(start, front);
    assert Agree(x, y, us, p, NextKey(p, mine)) && Agree(x, x, us, p, NextKey(p, mine));
    assert Unborn(x, p.session, NextKey(p, mine));
    hide Agree, Local, Elder;
    AgreeOwn(x, y, us, p, NextKey(p, mine), r.op);
    LocalThere(x, y, us, p, NextKey(p, mine), r.op);
  }

  /** Everyone else's part. */
  lemma OthersAgree(start: Db, us: set<Party>, front: seq<Request>, r: Request, p: Party)
    requires AllAgree(start, us, front) && LocalTo(Apply(start, front), r.party, r.op)
    requires r.party in us && p in us && p != r.party && r.id == Id(r.party.session, r.id.n) && r.id.n >= r.party.minted
    ensures Agree(Apply(start, Only(front + [r], p)), Apply(start, front + [r]), us, p, NextKey(p, Only(front + [r], p)))
  {
    OnlySnoc(front, r, p);
    ApplySnoc(start, front, r);
    hide Apply, Only, NextKey, Agree, Local, Apart;
    AgreeOther(Apply(start, Only(front, p)), Apply(start, front), us, p, NextKey(p, Only(front, p)), r.party, r.op, r.id.n);
  }

  lemma StillKeyed(db: Db, us: set<Party>, x: Db, p: Party, op: Op, n: nat)
    requires Keyed(db) && Agree(x, db, us, p, n) && LocalTo(db, p, op)
    ensures Keyed(Commit(db, op, Id(p.session, n)))
  {
    hide View, Local, Commit, Keyed, Stranger;
    LocalBorn(db, p, op, n);
    hide Unborn;
    CommitSound(db, op, p.session, n);
  }

  /**
   Whatever order the requests of messages with disjoint names land in, each message finds
   its rows as if it were alone, its requests stay keyed by its own rows, and no row comes
   to carry the names of two messages.
   */
  lemma {:induction false} Meets(start: Db, us: set<Party>, rs: seq<Request>)
    requires Company(start, us) && Woven(start, us, rs)
    ensures AllAgree(start, us, rs)
    decreases |rs|
  {
    hide Company, Agree, Keyed, Apart, Only, NextKey, Local, Elder, Apply;
    if rs == [] {
      NoneAgree(start, us);
    } else {
      var front, last := rs[..|rs| - 1], rs[|rs| - 1];
      assert rs == front + [last];
      Meets(start, us, front);
      OnlyWoven(start, us, front, last.party);
      OnlyShorter(front, last.party);
      Meets(start, us, Only(front, last.party));
      SenderAgrees(start, us, front, last);
      forall p | p in us && p != last.party ensures Agree(Apply(start, Only(rs, p)), Apply(start, rs), us, p, NextKey(p, Only(rs, p))) {
        NextKeyFrom(last.party, Only(front, last.party));
        OthersAgree(start, us, front, last, p);
      }
      ApplySnoc(start, front, last);
      StillKeyed(Apply(start, front), us, Apply(start, Only(front, last.party)), last.party, last.op, last.id.n);
      forall p, q | p in us && q in us && p != q ensures Apart(Apply(start, rs), p, q) {
        ApartKept(Apply(start, front), last.party, p, q, last.op, last.id);
      }
    }
  }

  lemma OnlyShorter(rs: seq<Request>, p: Party)
    ensures |Only(rs, p)| <= |rs|
  {
  }

  lemma NextKeyFrom(p: Party, mine: seq<Request>)
    ensures NextKey(p, mine) >= p.minted
  {
  }

  // -- putting a schedule together ---------------------------------------------------------------------

  lemma {:induction false} WovenPrefix(start: Db, us: set<Party>, rs: seq<Request>, n: nat)
    requires Woven(start, us, rs) && n <= |rs|
    ensures Woven(start, us, rs[..n])
    decreases |rs|
  {
    hide Proper;
    if n < |rs| {
      WovenPrefix(start, us, rs[..|rs| - 1], n);
      assert rs[..|rs| - 1][..n] == rs[..n];
    } else {
      assert rs[..n] == rs;
    }
  }

  /** Requests that are in order message by message are in order together. */
  lemma {:induction false} Braided(start: Db, us: set<Party>, rs: seq<Request>)
    requires forall r :: r in rs ==> r.party in us
    requires forall p :: p in us ==> Woven(start, us, Only(rs, p))
    ensures Woven(start, us, rs)
  {
    hide Only, Proper;
    if rs != [] {
      var front, last := rs[..|rs| - 1], rs[|rs| - 1];
      assert rs == front + [last] && last in rs;
      forall p | p in us ensures Woven(start, us, Only(front, p)) { FrontWoven(start, us, front, last, p); }
      hide Woven;
      Braided(start, us, front);
      LastProper(start, us, front, last);
      WovenSnoc(start, us, front, last);
    }
  }

  lemma FrontWoven(start: Db, us: set<Party>, front: seq<Request>, last: Request, p: Party)
    requires Woven(start, us, Only(front + [last], p))
    ensures Woven(start, us, Only(front, p))
  {
    hide Proper;
    OnlySnoc(front, last, p);
    WovenPrefix(start, us, Only(front + [last], p), |Only(front, p)|);
    assert Only(front + [last], p)[..|Only(front, p)|] == Only(front, p);
  }

  lemma LastProper(start: Db, us: set<Party>, front: seq<Request>, last: Request)
    requires Woven(start, us, Only(front + [last], last.party))
    ensures last.party in us && Proper(start, us, Only(front, last.party), last)
  {
    hide Proper;
    OnlySnoc(front, last, last.party);
    OnlyTwice(front, last.party, last.party);
    var mine := Only(front, last.party);
    assert (mine + [last])[..|mine + [last]| - 1] == mine;
  }

  lemma WovenSnoc(start: Db, us: set<Party>, front: seq<Request>, last: Request)
    requires Woven(start, us, front) && last.party in us && Proper(start, us, Only(front, last.party), last)
    ensures Woven(start, us, front + [last])
  {
    hide Proper;
    assert (front + [last])[..|front + [last]| - 1] == front;
  }
}
