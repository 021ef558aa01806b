/**
 Non-interference: whatever messages that name other servers do in between, a message
 takes the same steps, ends the same way and leaves its own rows as when it runs alone.
 The run alone is followed step by step; the run among others is its twin.
 */
module Interference {
  import opened Basics
  import opened BondNames
  import opened Cmdb
  import opened Planning
  import opened Retry
  import opened RetryProofs
  import opened StoreFacts
  import opened Attachments
  import opened AttachProofs
  import opened Tags
  import opened Create
  import opened Runs
  import opened Locality
  import opened Guarantee
  import opened Weaving

  // -- the past of a shared store ----------------------------------------------------------------

  function Us(c: Crowd): set<Party> { c.others + {c.me} }

  /** What one step of a message put on the store. */
  function Act(p: Party, s: Step): seq<Request> {
    if Lands(s.fault) then [Request(p, s.op, s.id)] else []
  }

  /** This message's own requests that landed. */
  function Acts(p: Party, trail: seq<Step>): seq<Request> {
    if trail == [] then [] else Acts(p, trail[..|trail| - 1]) + Act(p, trail[|trail| - 1])
  }

  /** All requests that landed: before each of ours what others asked for, and then ours. */
  function Heard(c: Crowd, trail: seq<Step>): seq<Request> {
    if trail == [] then []
    else Heard(c, trail[..|trail| - 1]) + Chunk(c.asks, |trail| - 1) + Act(c.me, trail[|trail| - 1])
  }

  /** The first `k` lots of what others ask for, in one sequence. */
  function Flat(asks: seq<seq<Request>>, k: nat): seq<Request> {
    if k == 0 then [] else Flat(asks, k - 1) + Chunk(asks, k - 1)
  }

  /** The others' requests are theirs, each message's in an order it could ask for them alone. */
  ghost predicate Invited(c: Crowd) {
    && (forall k, r :: 0 <= k < |c.asks| && r in c.asks[k] ==> r.party in c.others)
    && (forall q :: q in c.others ==> Woven(c.start, Us(c), Only(Flat(c.asks, |c.asks|), q)))
  }

  ghost predicate Welcome(c: Crowd) {
    Company(c.start, Us(c)) && c.me !in c.others && Invited(c)
  }

  /** The store is what the requests that landed made of it, and so was each store a request met. */
  ghost predicate Grounded(w: World) {
    && w.db == Apply(w.crowd.start, Heard(w.crowd, w.trail))
    && (forall k :: 0 <= k < |w.trail| ==>
          w.trail[k].met == Apply(w.crowd.start, Heard(w.crowd, w.trail[..k]) + Chunk(w.crowd.asks, k)))
  }

  /** Request number `k` of a message alone on the store was one it may ask for. */
  ghost predicate Footed(c: Crowd, trail: seq<Step>, k: nat)
    requires k < |trail|
  {
    Proper(c.start, Us(c), Acts(c.me, trail[..k]), Request(c.me, trail[k].op, trail[k].id))
  }

  /** A message alone on the store: each of its requests, landed or not, was keyed by its own rows. */
  ghost predicate Alone(v: World) {
    && Quiet(v) && Sound(v) && v.scope == v.crowd.me.scope && v.session == v.crowd.me.session
    && v.db == Apply(v.crowd.start, Acts(v.crowd.me, v.trail))
    && v.minted == NextKey(v.crowd.me, Acts(v.crowd.me, v.trail))
    && Woven(v.crowd.start, Us(v.crowd), Acts(v.crowd.me, v.trail))
    && (forall k :: 0 <= k < |v.trail| ==> Footed(v.crowd, v.trail, k))
  }

  ghost predicate SameSteps(a: seq<Step>, b: seq<Step>) {
    |a| == |b| && forall k :: 0 <= k < |a| ==> a[k].op == b[k].op && a[k].id == b[k].id && a[k].fault == b[k].fault
  }

  // -- two runs of one message -------------------------------------------------------------------

  /** The run with others around, and the run alone: the same requests so far, with the same fates. */
  ghost predicate Twin(w: World, v: World) {
    && v.crowd == w.crowd.(asks := []) && Welcome(w.crowd)
    && w.tape == v.tape && w.dice == v.dice && w.log == v.log && w.errors == v.errors
    && w.scope == v.scope && w.session == v.session && w.minted == v.minted && w.budget == v.budget
    && SameSteps(w.trail, v.trail) && Grounded(w) && Alone(v)
  }

  ghost predicate TwinTurn(s: Turn, t: Turn) { Twin(s.w, t.w) && s.answer == t.answer }
  ghost predicate TwinStage<T>(s: Stage<T>, t: Stage<T>) {
    && Twin(s.w, t.w)
    && match s
       case Fine(_, value) => t.Fine? && t.value == value
       case Broken(_, e) => t.Broken? && t.exn == e
  }
  ghost predicate TwinOutcome(s: Outcome, t: Outcome) { Twin(s.w, t.w) && s.status == t.status }

  function Own(w: World): set<Id> { Mine(w.db, w.scope, w.session) }
  function OwnCards(w: World): set<Id> { MyCards(w.db, w.scope, w.session) }

  /** A request keyed by own rows; a deletion bears no key another message will be given. */
  ghost predicate OwnRequest(w: World, op: Op) {
    && Local(w.db, w.scope, w.session, op)
    && (op.DeleteServer? ==> Elder(Us(w.crowd), w.crowd.me, op.server))
  }

  /** A rail of this own server. */
  ghost predicate RailOn(w: World, server: Id, id: Id) {
    server in Own(w) && exists r :: r in w.db.rails && r.id == id && r.serverId == server
  }

  // -- what landed, message by message -----------------------------------------------------------

  lemma {:induction false} OnlyFlat(asks: seq<seq<Request>>, k: nat, p: Party)
    requires forall i, r :: 0 <= i < |asks| && r in asks[i] ==> r.party != p
    ensures Only(Flat(asks, k), p) == []
  {
    if k > 0 {
      OnlyFlat(asks, k - 1, p);
      FilterNone(Chunk(asks, k - 1), By(p));
      FilterConcat(Flat(asks, k - 1), Chunk(asks, k - 1), By(p));
    }
  }

  lemma {:induction false} FlatGrows(asks: seq<seq<Request>>, k: nat, n: nat)
    requires k <= n
    ensures Flat(asks, k) <= Flat(asks, n)
    ensures |asks| <= k ==> Flat(asks, k) == Flat(asks, n)
  {
    if k < n { FlatGrows(asks, k, n - 1); }
  }

  /** The first lots hold the first requests of each message. */
  lemma FlatFirst(asks: seq<seq<Request>>, k: nat, q: Party)
    ensures Only(Flat(asks, k), q) <= Only(Flat(asks, |asks|), q)
  {
    var n := if k < |asks| then |asks| else k;
    FlatGrows(asks, k, n);
    FlatGrows(asks, |asks|, n);
    var some, all := Flat(asks, k), Flat(asks, n);
    assert all == some + all[|some|..];
    FilterConcat(some, all[|some|..], By(q));
  }

  lemma {:induction false} ActsAre(p: Party, trail: seq<Step>, q: Party)
    ensures Only(Acts(p, trail), q) == if q == p then Acts(p, trail) else []
    ensures forall r :: r in Acts(p, trail) ==> r.party == p
  {
    if trail != [] {
      var front, last := trail[..|trail| - 1], trail[|trail| - 1];
      ActsAre(p, front, q);
      FilterConcat(Acts(p, front), Act(p, last), By(q));
      if q == p { FilterAll(Act(p, last), By(q)); } else { FilterNone(Act(p, last), By(q)); }
    }
  }

  lemma {:induction false} HeardAre(c: Crowd, trail: seq<Step>)
    requires c.me !in c.others && forall k, r :: 0 <= k < |c.asks| && r in c.asks[k] ==> r.party in c.others
    ensures Only(Heard(c, trail), c.me) == Acts(c.me, trail)
    ensures forall q :: q in c.others ==> Only(Heard(c, trail), q) == Only(Flat(c.asks, |trail|), q)
    ensures forall r :: r in Heard(c, trail) ==> r.party in Us(c)
  {
    hide Filter;
    if trail != [] {
      var n := |trail| - 1;
      var before, ours := Heard(c, trail[..n]) + Chunk(c.asks, n), Act(c.me, trail[n]);
      HeardAre(c, trail[..n]);
      forall q | q in Us(c) ensures Only(Heard(c, trail), q) == if q == c.me then Acts(q, trail) else Only(Flat(c.asks, |trail|), q) {
        FilterConcat(Heard(c, trail[..n]), Chunk(c.asks, n), By(q));
        FilterConcat(before, ours, By(q));
        FilterConcat(Flat(c.asks, n), Chunk(c.asks, n), By(q));
        if q == c.me { FilterAll(ours, By(q)); FilterNone(Chunk(c.asks, n), By(q)); } else { FilterNone(ours, By(q)); }
      }
    }
  }

  lemma PastOf(c: Crowd, trail: seq<Step>, q: Party)
    requires Welcome(c) && q in c.others
    ensures Woven(c.start, Us(c), Only(Heard(c, trail) + Chunk(c.asks, |trail|), q))
  {
    hide Woven, Company, Us;
    var n := |trail|;
    HeardAre(c, trail);
    FilterConcat(Heard(c, trail), Chunk(c.asks, n), By(q));
    FilterConcat(Flat(c.asks, n), Chunk(c.asks, n), By(q));
    FlatFirst(c.asks, n + 1, q);
    var some, all := Only(Flat(c.asks, n + 1), q), Only(Flat(c.asks, |c.asks|), q);
    WovenPrefix(c.start, Us(c), all, |some|);
    assert some == all[..|some|];
  }

  lemma PastOfOurs(c: Crowd, trail: seq<Step>)
    requires Welcome(c)
    ensures
      var past := Heard(c, trail) + Chunk(c.asks, |trail|);
      Only(past, c.me) == Acts(c.me, trail) && forall r :: r in past ==> r.party in Us(c)
  {
    hide Woven, Company;
    HeardAre(c, trail);
    FilterConcat(Heard(c, trail), Chunk(c.asks, |trail|), By(c.me));
    FilterNone(Chunk(c.asks, |trail|), By(c.me));
  }

  /** What the next request meets is made of the others' first requests and our own. */
  lemma PastWoven(c: Crowd, trail: seq<Step>)
    requires Welcome(c) && Woven(c.start, Us(c), Acts(c.me, trail))
    ensures
      var past := Heard(c, trail) + Chunk(c.asks, |trail|);
      Woven(c.start, Us(c), past) && Only(past, c.me) == Acts(c.me, trail)
  {
    hide Woven, Company, Welcome, Heard, Acts, Only;
    var past := Heard(c, trail) + Chunk(c.asks, |trail|);
    PastOfOurs(c, trail);
    forall q | q in Us(c) ensures Woven(c.start, Us(c), Only(past, q)) {
      if q != c.me { PastOf(c, trail, q); }
    }
    Braided(c.start, Us(c), past);
  }

  // -- one request ---------------------------------------------------------------------------------

  lemma ActsSame(p: Party, a: seq<Step>, b: seq<Step>)
    requires SameSteps(a, b)
    ensures Acts(p, a) == Acts(p, b)
  {
    if a != [] { ActsSame(p, a[..|a| - 1], b[..|b| - 1]); }
  }

  /** The store the next request meets agrees with the store of the run alone. */
  lemma MetAgrees(w: World, v: World)
    requires Twin(w, v)
    ensures Agree(v.db, Met(w), Us(w.crowd), w.crowd.me, w.minted) && Keyed(Met(w))
  {
    hide Agree, Woven, Company, Invited, Proper, Footed, Sound, Apart, Keyed;
    var c := w.crowd;
    ActsSame(c.me, w.trail, v.trail);
    PastWoven(c, w.trail);
    var past := Heard(c, w.trail) + Chunk(c.asks, |w.trail|);
    Meets(c.start, Us(c), past);
    Joined(c.start, Heard(c, w.trail), Chunk(c.asks, |w.trail|));
  }

  lemma {:induction false} Joined(db: Db, a: seq<Request>, b: seq<Request>)
    ensures Apply(db, a + b) == Apply(Apply(db, a), b)
  {
    if b == [] {
      assert a + b == a;
    } else {
      assert (a + b)[..|a + b| - 1] == a + b[..|b| - 1];
      Joined(db, a, b[..|b| - 1]);
    }
  }

  /** One more step of the run among others. */
  lemma GroundedOn(w: World, op: Op)
    requires Grounded(w)
    ensures Grounded(Exchange(w, op).w)
  {
    hide Commit, Reads;
    var c, w' := w.crowd, Exchange(w, op).w;
    var met, n := Met(w), |w.trail|;
    var step := Step(met, op, Id(w.session, w.minted), Fate(w));
    assert w'.trail == w.trail + [step] && w'.trail[..n] == w.trail;
    var past := Heard(c, w.trail) + Chunk(c.asks, n);
    Joined(c.start, Heard(c, w.trail), Chunk(c.asks, n));
    if Lands(Fate(w)) {
      ApplySnoc(c.start, past, Request(c.me, op, step.id));
    } else {
      assert past + [] == past;
    }
    forall k | 0 <= k < |w'.trail| ensures w'.trail[k].met == Apply(c.start, Heard(c, w'.trail[..k]) + Chunk(c.asks, k)) {
      if k < n { assert w'.trail[..k] == w.trail[..k]; }
    }
  }

  lemma SoundOn(v: World, op: Op)
    requires Quiet(v) && Sound(v) && Local(v.db, v.scope, v.session, op)
    ensures Sound(Exchange(v, op).w)
  {
    hide Commit, Reads, Local, Keyed, Unborn, View;
    LocalBorn(v.db, Party(v.scope, v.session, 0), op, v.minted);
    CommitSound(v.db, op, v.session, v.minted);
  }

  /** One more request of a message alone, landed. */
  lemma ActsOn(c: Crowd, trail: seq<Step>, step: Step)
    requires Lands(step.fault) && Woven(c.start, Us(c), Acts(c.me, trail))
    requires Proper(c.start, Us(c), Acts(c.me, trail), Request(c.me, step.op, step.id))
    ensures
      var mine, mine' := Acts(c.me, trail), Acts(c.me, trail + [step]);
      && Woven(c.start, Us(c), mine')
      && Apply(c.start, mine') == Commit(Apply(c.start, mine), step.op, step.id)
      && NextKey(c.me, mine') == NextKey(c.me, mine) + if step.op.Insert() then 1 else 0
  {
    hide Commit, Proper, Woven;
    var mine, r := Acts(c.me, trail), Request(c.me, step.op, step.id);
    assert (trail + [step])[..|trail|] == trail;
    ActsAre(c.me, trail, c.me);
    ApplySnoc(c.start, mine, r);
    NextKeySnoc(c.me, mine, r);
    WovenSnoc(c.start, Us(c), mine, r);
  }

  /** One more step of the run alone. */
  lemma AloneOn(v: World, op: Op)
    requires Alone(v) && OwnRequest(v, op)
    ensures Alone(Exchange(v, op).w)
  {
    hide Commit, Reads, Local, Sound, Elder, Woven, Apply, Footed, Proper, Acts, NextKey;
    var c, v' := v.crowd, Exchange(v, op).w;
    var step := Step(v.db, op, Id(v.session, v.minted), Fate(v));
    assert v'.trail == v.trail + [step];
    MayAct(v, op);
    if Lands(Fate(v)) {
      ActsOn(c, v.trail, step);
    } else {
      ActsOff(c, v.trail, step);
    }
    FootedOn(c, v.trail, step);
    SoundOn(v, op);
  }

  lemma MayAct(v: World, op: Op)
    requires Alone(v) && OwnRequest(v, op)
    ensures Proper(v.crowd.start, Us(v.crowd), Acts(v.crowd.me, v.trail), Request(v.crowd.me, op, Id(v.session, v.minted)))
  {
    hide Sound, Woven, Footed, Acts, Local, Elder, Apply, NextKey;
  }

  lemma ActsOff(c: Crowd, trail: seq<Step>, step: Step)
    requires !Lands(step.fault)
    ensures Acts(c.me, trail + [step]) == Acts(c.me, trail)
  {
    assert (trail + [step])[..|trail|] == trail && Acts(c.me, trail) + [] == Acts(c.me, trail);
  }

  lemma FootedOn(c: Crowd, trail: seq<Step>, step: Step)
    requires forall k :: 0 <= k < |trail| ==> Footed(c, trail, k)
    requires Proper(c.start, Us(c), Acts(c.me, trail), Request(c.me, step.op, step.id))
    ensures forall k :: 0 <= k < |trail + [step]| ==> Footed(c, trail + [step], k)
  {
    hide Proper, Acts;
    forall k | 0 <= k < |trail + [step]| ensures Footed(c, trail + [step], k) {
      if k < |trail| {
        assert Footed(c, trail, k);
        assert (trail + [step])[..k] == trail[..k];
      } else {
        assert (trail + [step])[..k] == trail;
      }
    }
  }

  /** One request, with and without others around: the same answer, and still twins. */
  lemma ExchangeTwin(w: World, v: World, op: Op)
    requires Twin(w, v) && OwnRequest(v, op)
    ensures TwinTurn(Exchange(w, op), Exchange(v, op)) && OwnRequest(Exchange(v, op).w, op)
  {
    hide Grounded, Alone, Commit, Reads, View, Local, Keyed, Unborn, Welcome, Agree, Elder;
    MetAgrees(w, v);
    AgreeMeans(v.db, Met(w), Us(w.crowd), w.crowd.me, w.minted);
    AloneMeans(v);
    LocalThere(v.db, Met(w), Us(w.crowd), w.crowd.me, w.minted, op);
    AnswersAlike(v.db, Met(w), w.crowd.me, op, w.minted);
    GroundedOn(w, op);
    AloneOn(v, op);
    LocalKept(v.db, v.scope, v.session, op, FreshId(v));
  }

  lemma AgreeMeans(x: Db, y: Db, us: set<Party>, p: Party, minted: nat)
    requires Agree(x, y, us, p, minted)
    ensures ViewFor(x, p) == ViewFor(y, p) && Unborn(y, p.session, minted)
  {
    hide View, Unborn, Stranger;
  }

  lemma AloneMeans(v: World)
    requires Alone(v)
    ensures Quiet(v) && Keyed(v.db) && Unborn(v.db, v.session, v.minted) && v.scope == v.crowd.me.scope && v.session == v.crowd.me.session
  {
    hide Woven, Footed, Acts, Apply;
  }

  // -- what one request keeps, and what its answer refers to -----------------------------------------

  /** Own rows stay own, unless this request is the one that deletes them. */
  ghost predicate Keeps(w: World, w': World, op: Op) {
    && (forall id :: id in Own(w) && op != DeleteServer(id) ==> id in Own(w'))
    && (!op.DeleteServer? && !op.SweepEndpoints? ==> OwnCards(w) <= OwnCards(w'))
    && (forall server, id :: RailOn(w, server, id) && op != DeleteServer(server) && op != DeleteRail(id) ==> RailOn(w', server, id))
    && w'.scope == w.scope && w'.session == w.session && w'.budget == w.budget
  }

  /** A server found for removal is own, with its own distinct rails. */
  ghost predicate OwnDoomed(w: World, x: Doomed) {
    x.server in Own(w) && Distinct(x.rails) && forall r :: r in x.rails ==> RailOn(w, x.server, r)
  }

  ghost predicate OwnFound(w: World, found: seq<Doomed>) {
    && (forall x :: x in found ==> OwnDoomed(w, x))
    && (forall i, j :: 0 <= i < j < |found| ==> found[i].server != found[j].server)
  }

  /** Every key in an answer is the key of an own row. */
  ghost predicate Refs(w: World, answer: Answer) {
    answer.Got? ==>
      match answer.reply
      case ServerRow(s, views) => s in Own(w) && forall v :: v in views ==> v.row.id in OwnCards(w)
      case ServerRef(s) => s in Own(w)
      case ServerList(found) => OwnFound(w, found)
      case EndpointRef(e, _, _) => e in OwnCards(w)
      case IpRef(_, e, _) => e in OwnCards(w)
      case _ => true
  }

  lemma CommitKeeps(w: World, op: Op, id: Id, w': World)
    requires Local(w.db, w.scope, w.session, op) && w'.db == Commit(w.db, op, id)
    requires w'.scope == w.scope && w'.session == w.session && w'.budget == w.budget
    ensures Keeps(w, w', op)
  {
    hide Mine, MyCards, Local, Commit, RailOn;
    forall k | k in Own(w) && op != DeleteServer(k) ensures k in Own(w') { MineKept(w.db, w.scope, w.session, op, id, k); }
    if !op.DeleteServer? && !op.SweepEndpoints? {
      forall k | k in OwnCards(w) ensures k in OwnCards(w') { MyCardsKept(w.db, w.scope, w.session, op, id, k); }
    }
    forall server, k | RailOn(w, server, k) && op != DeleteServer(server) && op != DeleteRail(k) ensures RailOn(w', server, k) {
      RailKept(w, op, id, w', server, k);
    }
  }

  lemma RailKept(w: World, op: Op, id: Id, w': World, server: Id, rail: Id)
    requires RailOn(w, server, rail) && op != DeleteServer(server) && op != DeleteRail(rail)
    requires Local(w.db, w.scope, w.session, op) && w'.db == Commit(w.db, op, id) && w'.scope == w.scope && w'.session == w.session
    ensures RailOn(w', server, rail)
  {
    hide Mine, Local;
    MineKept(w.db, w.scope, w.session, op, id, server);
    var r :| r in w.db.rails && r.id == rail && r.serverId == server;
    assert r in w'.db.rails;
  }

  lemma KeepsTrans(a: World, b: World, c: World, op: Op)
    requires Keeps(a, b, op) && Keeps(b, c, op)
    ensures Keeps(a, c, op)
  {
    hide RailOn, Mine, MyCards;
  }

  lemma SameKeeps(w: World, w': World, op: Op)
    requires w'.db == w.db && w'.scope == w.scope && w'.session == w.session && w'.budget == w.budget
    ensures Keeps(w, w', op)
  {
    hide Mine, MyCards;
  }

  lemma ExchangeKeeps(v: World, op: Op)
    requires Quiet(v) && OwnRequest(v, op)
    ensures Keeps(v, Exchange(v, op).w, op)
  {
    hide Commit, Reads, Local, Mine, MyCards, Keeps, Elder;
    if Lands(Fate(v)) {
      CommitKeeps(v, op, FreshId(v), Exchange(v, op).w);
    } else {
      SameKeeps(v, Exchange(v, op).w, op);
    }
  }

  // -- answers refer to own rows only -----------------------------------------------------------------

  lemma CardOfMine(w: World, e: Endpoint)
    requires e in w.db.endpoints && e.serverId in Own(w)
    ensures e.id in OwnCards(w)
  {
    MyCardsMeans(w.db, w.scope, w.session, e.id);
  }

  lemma ServerOfMine(w: World, s: Server)
    requires s in w.db.servers && InScope(s, w.scope, w.session)
    ensures s.id in Own(w)
  {
    MineMeans(w.db, w.scope, w.session, s.id);
  }

  lemma ServerRowRefs(w: World, uuid: string, id: Id)
    requires uuid in w.scope.uuids
    ensures Refs(w, Got(Reads(w.db, SelectServerByUuid(uuid), id)))
  {
    var first := First(w.db.servers, Matching(None, Some(uuid)));
    if first.Some? {
      var s := first.value;
      ServerOfMine(w, s);
      ViewNames(w.db, s.id);
      hide ViewOf, Mine, MyCards;
      forall v | v in ViewOf(w.db, s.id) ensures v.row.id in OwnCards(w) { CardOfMine(w, v.row); }
    }
  }

  lemma DoomedRefs(w: World, s: Server)
    requires Keyed(w.db) && s in w.db.servers && InScope(s, w.scope, w.session)
    ensures OwnDoomed(w, DoomedRow(w.db)(s))
  {
    ServerOfMine(w, s);
    var mine := Filter(w.db.rails, RailOf(s.id));
    var rails := DoomedRow(w.db)(s).rails;
    FilterKeyed(w.db.rails, RailOf(s.id), (r: Rail) => r.id);
    hide Mine, Keyed;
    forall r | r in rails ensures RailOn(w, s.id, r) {
      var i :| 0 <= i < |rails| && rails[i] == r;
      assert mine[i] in mine && mine[i].id == r;
    }
  }

  lemma FoundRefs(w: World, h: Option<string>, u: Option<string>)
    requires Keyed(w.db) && OnlyNames(w.scope, h, u)
    ensures OwnFound(w, Map(Filter(w.db.servers, MatchingAny(h, u)), DoomedRow(w.db)))
  {
    var rows := Filter(w.db.servers, MatchingAny(h, u));
    var found := Map(rows, DoomedRow(w.db));
    FilterKeyed(w.db.servers, MatchingAny(h, u), (s: Server) => s.id);
    hide OwnDoomed, Keyed, InScope;
    forall x | x in found ensures OwnDoomed(w, x) {
      var i :| 0 <= i < |found| && found[i] == x;
      assert rows[i] in rows;
      MatchInScope(rows[i], w.scope, w.session, h, u);
      DoomedRefs(w, rows[i]);
    }
    assert forall i :: 0 <= i < |found| ==> found[i].server == rows[i].id;
  }

  lemma CardRefs(w: World, op: Op, id: Id)
    requires (op.SelectEndpointByName? || op.SelectEndpointByMac?) && op.serverId in Own(w)
    ensures Refs(w, Got(Reads(w.db, op, id)))
  {
    hide Mine, MyCards;
    var first := match op
      case SelectEndpointByName(s, name) => First(w.db.endpoints, Cmdb.Named(s, name))
      case SelectEndpointByMac(s, mac) => First(w.db.endpoints, WithMac(s, mac));
    if first.Some? { CardOfMine(w, first.value); }
  }

  lemma AttachedRefs(w: World, addr: string, uuid: string, id: Id)
    requires uuid in w.scope.uuids
    ensures Refs(w, Got(Reads(w.db, SelectAttachedIp(addr, uuid), id)))
  {
    hide Mine, MyCards, Attached, EndpointName;
    var first := First(w.db.ips, AttachedTo(w.db, addr, uuid));
    if first.Some? { AttachedLocal(w.db, w.scope, w.session, first.value, addr, uuid); }
  }

  lemma InsertRefs(w: World, op: Op, id: Id, w': World)
    requires Local(w.db, w.scope, w.session, op) && op.Insert() && id.session == w.session
    requires w'.db == Commit(w.db, op, id) && w'.scope == w.scope && w'.session == w.session
    ensures Refs(w', Got(Reads(w.db, op, id)))
  {
    match op
    case InsertServer(cols) =>
      assert Server(id, cols) in w'.db.servers;
      ServerOfMine(w', Server(id, cols));
    case InsertEndpoint(s, name, mac, notes) =>
      MineKept(w.db, w.scope, w.session, op, id, s);
      assert Endpoint(id, s, name, mac, notes) in w'.db.endpoints;
      CardOfMine(w', Endpoint(id, s, name, mac, notes));
    case InsertIp(e, _, _, _) => MyCardsKept(w.db, w.scope, w.session, op, id, e);
  }

  lemma ReadsRefs(w: World, op: Op, id: Id, w': World)
    requires Local(w.db, w.scope, w.session, op) && Keyed(w.db) && id.session == w.session
    requires w'.db == Commit(w.db, op, id) && w'.scope == w.scope && w'.session == w.session
    ensures Refs(w', Got(Reads(w.db, op, id)))
  {
    hide Mine, MyCards, Keyed, ViewOf, EndpointName, InScope, OwnFound;
    if op.Insert() {
      InsertRefs(w, op, id, w');
    } else if !op.Write() {
      SameRefs(w, w', Got(Reads(w.db, op, id)));
      match op
      case SelectServerByUuid(u) => ServerRowRefs(w, u, id);
      case SelectServerByHostname(h) =>
        var first := First(w.db.servers, Matching(Some(h), None));
        if first.Some? { MatchInScope(first.value, w.scope, w.session, Some(h), None); ServerOfMine(w, first.value); }
      case SelectServers(h, u) => FoundRefs(w, h, u);
      case SelectAttachedIp(addr, u) => AttachedRefs(w, addr, u, id);
      case SelectEndpointByName(_, _) => CardRefs(w, op, id);
      case SelectEndpointByMac(_, _) => CardRefs(w, op, id);
      case _ =>
    }
  }

  lemma SameRefs(w: World, w': World, answer: Answer)
    requires w'.db == w.db && w'.scope == w.scope && w'.session == w.session
    ensures Refs(w, answer) ==> Refs(w', answer)
  {
  }

  lemma ExchangeRefs(v: World, op: Op)
    requires Quiet(v) && Sound(v) && OwnRequest(v, op)
    ensures Refs(Exchange(v, op).w, Exchange(v, op).answer)
  {
    hide Commit, Reads, View, Local, Keyed, Unborn, Mine, MyCards, Refs, Elder;
    var t := Exchange(v, op);
    if t.answer.Got? {
      ReadsRefs(v, op, FreshId(v), t.w);
    } else {
      NoRefs(t.w, t.answer);
    }
  }

  lemma NoRefs(w: World, answer: Answer)
    requires answer.Threw? || answer.reply == Nothing
    ensures Refs(w, answer)
  {
  }

  // -- the retry engine -----------------------------------------------------------------------------------

  /** A call, with and without others around. */
  ghost predicate TwinCall(v: World, s: Turn, t: Turn, op: Op) {
    && TwinTurn(s, t) && Keeps(v, t.w, op) && Refs(t.w, t.answer) && OwnRequest(t.w, op)
  }

  ghost predicate LocalSel(w: World, sel: Selector) {
    match sel
    case NoSelector => true
    case Once(q) => !q.Write() && Local(w.db, w.scope, w.session, q)
    case AttachedIp(_, u) => u in w.scope.uuids
    case AttachEndpoint(_, u, s, _) => u in w.scope.uuids && s in Own(w)
  }

  lemma SelKept(w: World, w': World, sel: Selector, op: Op)
    requires LocalSel(w, sel) && Keeps(w, w', op) && !op.DeleteServer? && !op.SweepEndpoints?
    ensures LocalSel(w', sel)
  {
    hide Mine, MyCards, RailOn;
    KeptIds(w, w', op);
    if sel.Once? { ReadKept(w, w', sel.query); }
  }

  lemma KeptIds(w: World, w': World, op: Op)
    requires Keeps(w, w', op) && !op.DeleteServer? && !op.SweepEndpoints?
    ensures Own(w) <= Own(w') && OwnCards(w) <= OwnCards(w')
  {
    hide Mine, MyCards, RailOn;
  }

  /** A read or an insert stays local as long as own rows stay. */
  lemma ReadKept(w: World, w': World, q: Op)
    requires Own(w) <= Own(w') && OwnCards(w) <= OwnCards(w') && w'.scope == w.scope && w'.session == w.session
    requires (!q.Write() || q.Insert()) && Local(w.db, w.scope, w.session, q)
    ensures Local(w'.db, w'.scope, w'.session, q)
  {
    hide Mine, MyCards;
    assert Own(w) == Mine(w.db, w.scope, w.session) && OwnCards(w) == MyCards(w.db, w.scope, w.session);
    assert Own(w') == Mine(w'.db, w'.scope, w'.session) && OwnCards(w') == MyCards(w'.db, w'.scope, w'.session);
  }

  lemma ReadIsOwn(v: World, q: Op)
    requires !q.Write() && Local(v.db, v.scope, v.session, q)
    ensures OwnRequest(v, q)
  {
  }

  lemma TwinMeans(w: World, v: World)
    requires Twin(w, v)
    ensures Quiet(v) && Sound(v) && w.budget == v.budget && w.tape == v.tape && w.errors == v.errors && w.log == v.log
    ensures w.scope == v.scope && w.session == v.session && w.db.catalog == v.db.catalog
  {
    hide Welcome, Woven, Footed, Sound, Acts, Heard;
  }

  lemma ExchangeTwinCall(w: World, v: World, op: Op)
    requires Twin(w, v) && OwnRequest(v, op)
    ensures TwinCall(v, Exchange(w, op), Exchange(v, op), op)
  {
    hide Exchange, OwnRequest, Keeps, Refs, View, Twin;
    TwinMeans(w, v);
    ExchangeTwin(w, v, op);
    ExchangeKeeps(v, op);
    ExchangeRefs(v, op);
  }

  lemma TwinSlept(w: World, v: World, k: nat)
    requires Twin(w, v)
    ensures Twin(Nap(w, k), Nap(v, k))
  {
    hide Welcome, Woven, Footed, Keyed, Unborn, Acts, Heard;
  }

  lemma NapTwin(v: World, s: Turn, t: Turn, op: Op, k: nat)
    requires TwinCall(v, s, t, op)
    ensures Twin(Nap(s.w, k), Nap(t.w, k)) && OwnRequest(Nap(t.w, k), op) && Keeps(v, Nap(t.w, k), op)
  {
    hide Twin, Keeps, OwnRequest, Refs;
    TwinSlept(s.w, t.w, k);
    SameStore(v, t.w, Nap(t.w, k), op);
  }

  /** What depends on the store alone. */
  lemma SameStore(v: World, a: World, b: World, op: Op)
    requires b.db == a.db && b.scope == a.scope && b.session == a.session && b.budget == a.budget && b.crowd == a.crowd
    requires Keeps(v, a, op) && OwnRequest(a, op)
    ensures Keeps(v, b, op) && OwnRequest(b, op)
  {
    hide View, Local, Elder, Mine, MyCards;
  }

  lemma TwinFailed(w: World, v: World, o: Opts)
    requires Twin(w, v)
    ensures Twin(Fail(w, o).w, Fail(v, o).w)
  {
    hide Welcome, Woven, Footed, Keyed, Unborn, Acts, Heard;
  }

  lemma FailTwin(v: World, s: Turn, t: Turn, op: Op, o: Opts)
    requires TwinCall(v, s, t, op)
    ensures TwinCall(v, Fail(s.w, o), Fail(t.w, o), op)
  {
    hide Twin, Keeps, OwnRequest, Refs;
    TwinFailed(s.w, t.w, o);
    SameStore(v, t.w, Fail(t.w, o).w, op);
    NoRefs(Fail(t.w, o).w, Fail(t.w, o).answer);
  }

  lemma TwinTrans(v: World, v1: World, s: Turn, t: Turn, op: Op)
    requires Keeps(v, v1, op) && TwinCall(v1, s, t, op)
    ensures TwinCall(v, s, t, op)
  {
    hide TwinTurn, Refs, OwnRequest, Keeps;
    KeepsTrans(v, v1, t.w, op);
  }

  lemma {:induction false} IssueTwin(w: World, v: World, op: Op, sel: Selector, o: Opts, k: nat)
    requires Twin(w, v) && OwnRequest(v, op) && LocalSel(v, sel) && (sel.NoSelector? || op.Insert())
    requires 1 <= k <= Tries(w) && Tries(v) == Tries(w)
    ensures TwinCall(v, Issue(w, op, sel, o, k), Issue(v, op, sel, o, k), op)
    decreases Weight(sel), 1, Tries(w) - k, 0
  {
    hide Exchange, OwnRequest, Keeps, Refs, View, LocalSel, Twin;
    ExchangeTwinCall(w, v, op);
    var s, t := Exchange(w, op), Exchange(v, op);
    if s.answer.Threw? {
      if s.answer.exn.Perm? {
        FailTwin(v, s, t, op, o);
      } else if k < Tries(w) {
        NextTwin(v, s, t, op, sel, k);
        AttemptsTwin(Nap(s.w, k), Nap(t.w, k), op, sel, o, k + 1);
        TwinTrans(v, Nap(t.w, k), Attempts(Nap(s.w, k), op, sel, o, k + 1), Attempts(Nap(t.w, k), op, sel, o, k + 1), op);
      }
    }
  }

  lemma NoSel(w: World)
    ensures LocalSel(w, NoSelector)
  {
  }

  lemma SameTries(s: Turn, t: Turn, k: nat)
    requires TwinTurn(s, t)
    ensures Tries(Nap(s.w, k)) == Tries(Nap(t.w, k)) && Tries(s.w) == Tries(t.w) && Tries(Nap(s.w, k)) == Tries(s.w)
  {
    hide Grounded, Alone, Welcome;
  }

  lemma StillTwin(v: World, s: Turn, t: Turn, op: Op, sel: Selector, k: nat)
    requires TwinCall(v, s, t, op) && LocalSel(v, sel) && !sel.NoSelector? && op.Insert()
    ensures LocalSel(t.w, sel) && OwnRequest(t.w, op) && Keeps(v, t.w, op) && Tries(s.w) == Tries(t.w)
  {
    hide OwnRequest, Keeps, Refs, View, LocalSel, Twin, Nap;
    SelKept(v, t.w, sel, op);
    SameTries(s, t, k);
  }

  lemma ReselectTries(w: World, v: World, sel: Selector)
    requires !sel.NoSelector?
    ensures Tries(Reselect(w, sel).w) == Tries(w) && Tries(Reselect(v, sel).w) == Tries(v)
  {
    hide Reselect;
  }

  /** After a pause both runs stand before the next attempt. */
  lemma NextTwin(v: World, s: Turn, t: Turn, op: Op, sel: Selector, k: nat)
    requires TwinCall(v, s, t, op) && LocalSel(v, sel) && (sel.NoSelector? || op.Insert())
    ensures Twin(Nap(s.w, k), Nap(t.w, k)) && OwnRequest(Nap(t.w, k), op) && Keeps(v, Nap(t.w, k), op)
    ensures LocalSel(Nap(t.w, k), sel) && Tries(Nap(s.w, k)) == Tries(s.w) == Tries(t.w) == Tries(Nap(t.w, k))
  {
    hide OwnRequest, Keeps, Refs, View, LocalSel, Twin, Nap;
    NapTwin(v, s, t, op, k);
    if !sel.NoSelector? { SelKept(v, Nap(t.w, k), sel, op); } else { NoSel(Nap(t.w, k)); }
    SameTries(s, t, k);
  }

  lemma {:induction false} AttemptsTwin(w: World, v: World, op: Op, sel: Selector, o: Opts, k: nat)
    requires Twin(w, v) && OwnRequest(v, op) && LocalSel(v, sel) && (sel.NoSelector? || op.Insert())
    requires 1 <= k <= Tries(w) && Tries(v) == Tries(w)
    ensures TwinCall(v, Attempts(w, op, sel, o, k), Attempts(v, op, sel, o, k), op)
    decreases Weight(sel), 1, Tries(w) - k, 1
  {
    hide Exchange, OwnRequest, Keeps, Refs, View, LocalSel, Twin, TwinCall, Issue, Reselect, Nap, Extends, Tries;
    if sel.NoSelector? || k == 1 {
      IssueTwin(w, v, op, sel, o, k);
    } else {
      ReselectTwin(w, v, op, sel);
      var s, t := Reselect(w, sel), Reselect(v, sel);
      SameAnswer(v, s, t, op);
      ReselectTries(w, v, sel);
      if s.answer.Threw? {
        if k < Tries(w) {
          NextTwin(v, s, t, op, sel, k);
          AttemptsTwin(Nap(s.w, k), Nap(t.w, k), op, sel, o, k + 1);
          TwinTrans(v, Nap(t.w, k), Attempts(Nap(s.w, k), op, sel, o, k + 1), Attempts(Nap(t.w, k), op, sel, o, k + 1), op);
        }
      } else if s.answer.reply == Nothing {
        StillTwin(v, s, t, op, sel, k);
        IssueTwin(s.w, t.w, op, sel, o, k);
        TwinTrans(v, t.w, Issue(s.w, op, sel, o, k), Issue(t.w, op, sel, o, k), op);
      }
    }
  }

  /** What a read keeps, an insert's retry may rely on. */
  lemma ForInsert(v: World, s: Turn, t: Turn, q: Op, op: Op)
    requires TwinCall(v, s, t, q) && !q.Write() && op.Insert() && OwnRequest(v, op)
    ensures TwinCall(v, s, t, op)
  {
    KeptIds(v, t.w, q);
    ReadKept(v, t.w, op);
    ReadKeeps(v, t.w, q, op);
    hide Twin, View, Mine, MyCards, Sound, RailOn, Refs, Local, Keeps, Elder;
  }

  lemma ReadKeeps(w: World, w': World, q: Op, op: Op)
    requires Keeps(w, w', q) && !q.Write()
    ensures Keeps(w, w', op)
  {
    hide Mine, MyCards, RailOn;
  }

  lemma {:induction false} ProbeTwin(w: World, v: World, op: Op, addr: string, uuid: string)
    requires Twin(w, v) && OwnRequest(v, op) && op.Insert() && uuid in v.scope.uuids
    ensures
      var q := SelectAttachedIp(addr, uuid);
      TwinCall(v, Attempts(w, q, NoSelector, PROBE, 1), Attempts(v, q, NoSelector, PROBE, 1), op)
    decreases 0, 2, 0, 0
  {
    var q := SelectAttachedIp(addr, uuid);
    hide OwnRequest, TwinCall, Twin, Attempts, LocalSel;
    TwinMeans(w, v);
    ReadIsOwn(v, q);
    NoSel(v);
    AttemptsTwin(w, v, q, NoSelector, PROBE, 1);
    ForInsert(v, Attempts(w, q, NoSelector, PROBE, 1), Attempts(v, q, NoSelector, PROBE, 1), q, op);
  }

  lemma CardFromIp(v: World, s: Turn, t: Turn, op: Op)
    requires TwinCall(v, s, t, op) && s.answer.Got? && s.answer.reply.IpRef?
    ensures
      var card := Got(EndpointRef(s.answer.reply.onEndpoint, s.answer.reply.onName, true));
      TwinCall(v, Turn(s.w, card), Turn(t.w, card), op)
  {
    hide View, Mine, MyCards, OwnRequest, Keeps, Twin;
  }

  lemma KeptServer(w: World, w': World, op: Op, server: Id)
    requires Keeps(w, w', op) && !op.DeleteServer? && server in Own(w)
    ensures server in Own(w')
  {
    hide Mine, MyCards, RailOn;
  }

  lemma SecondProbe(v: World, s: Turn, t: Turn, op: Op, server: Id, name: string)
    requires TwinCall(v, s, t, op) && op.Insert() && server in Own(v)
    ensures TwinCall(v, Exchange(s.w, SelectEndpointByName(server, name)), Exchange(t.w, SelectEndpointByName(server, name)), op)
  {
    var q := SelectEndpointByName(server, name);
    hide OwnRequest, Keeps, Refs, Exchange, View, Mine, Twin;
    KeptServer(v, t.w, op, server);
    ReadIsOwn(t.w, q);
    ExchangeTwinCall(s.w, t.w, q);
    ForInsert(t.w, Exchange(s.w, q), Exchange(t.w, q), q, op);
    TwinTrans(v, t.w, Exchange(s.w, q), Exchange(t.w, q), op);
  }

  lemma SameAnswer(v: World, s: Turn, t: Turn, op: Op)
    requires TwinCall(v, s, t, op)
    ensures s.answer == t.answer && Twin(s.w, t.w)
  {
    hide Twin, Keeps, Refs, OwnRequest;
  }

  /** A re-select on behalf of an insert. */
  lemma {:induction false} ReselectTwin(w: World, v: World, op: Op, sel: Selector)
    requires Twin(w, v) && OwnRequest(v, op) && LocalSel(v, sel) && !sel.NoSelector? && op.Insert()
    ensures TwinCall(v, Reselect(w, sel), Reselect(v, sel), op)
    decreases Weight(sel), 0, 0, 0
  {
    hide Exchange, OwnRequest, TwinCall, Twin, Attempts;
    match sel
    case Once(query) =>
      ReadIsOwn(v, query);
      ExchangeTwinCall(w, v, query);
      ForInsert(v, Exchange(w, query), Exchange(v, query), query, op);
    case AttachedIp(addr, uuid) =>
      ProbeTwin(w, v, op, addr, uuid);
    case AttachEndpoint(addr, uuid, server, name) =>
      ProbeTwin(w, v, op, addr, uuid);
      EndpointTwin(w, v, op, addr, uuid, server, name);
  }

  /** The attach endpoint's re-select: the address first, and the name only where that found nothing. */
  lemma EndpointTwin(w: World, v: World, op: Op, addr: string, uuid: string, server: Id, name: string)
    requires op.Insert() && LocalSel(v, AttachEndpoint(addr, uuid, server, name))
    requires
      var q := SelectAttachedIp(addr, uuid);
      TwinCall(v, Attempts(w, q, NoSelector, PROBE, 1), Attempts(v, q, NoSelector, PROBE, 1), op)
    ensures
      var sel := AttachEndpoint(addr, uuid, server, name);
      TwinCall(v, Reselect(w, sel), Reselect(v, sel), op)
  {
    hide Exchange, OwnRequest, TwinCall, Twin, Attempts;
    var q := SelectAttachedIp(addr, uuid);
    var s, t := Attempts(w, q, NoSelector, PROBE, 1), Attempts(v, q, NoSelector, PROBE, 1);
    SameAnswer(v, s, t, op);
    if s.answer.Got? {
      if s.answer.reply.IpRef? {
        CardFromIp(v, s, t, op);
      } else {
        SecondProbe(v, s, t, op, server, name);
      }
    }
  }
}
