/**
 Messages handled at the same time on one store. Whoever's turn it is sends the request
 its own run comes to next, on the store as all requests so far have left it.
 */
module Joint {
  import opened Basics
  import opened Cmdb
  import opened Retry
  import opened RetryProofs
  import opened StoreFacts
  import opened Attachments
  import opened Create
  import opened Runs
  import opened Locality
  import opened Guarantee
  import opened Weaving
  import opened Interference
  import opened ProtocolTwins
  import opened NonInterference
  import opened Service

  /**
   A message to be handled: its party, the fates of its requests, its jitter, its attempts per
   request, and the attempts at the whole message with the first delay between them.
   */
  datatype Player = Player(
    party: Party, message: Message, tape: seq<Fault>, dice: seq<real>, budget: int, attempts: nat, delay: int)

  /** The service is configured with at least one attempt. */
  function AttemptsOf(p: Player): (n: nat)
    ensures n >= 1
  {
    if p.attempts == 0 then 1 else p.attempts
  }

  /** One request sent: by which message, and what became of it. */
  datatype Move = Move(who: nat, step: Step)

  function Parties(ps: seq<Player>): set<Party> { set p | p in ps :: p.party }

  /** What this move put on the store. */
  function Put(ps: seq<Player>, move: Move): seq<Request> {
    if move.who < |ps| then Act(ps[move.who].party, move.step) else []
  }

  /** Every request that landed, in order. */
  function Past(ps: seq<Player>, h: seq<Move>): seq<Request> {
    if h == [] then [] else Past(ps, h[..|h| - 1]) + Put(ps, h[|h| - 1])
  }

  /** The requests message `i` sent. */
  function Steps(h: seq<Move>, i: nat): seq<Step> {
    if h == [] then []
    else Steps(h[..|h| - 1], i) + if h[|h| - 1].who == i then [h[|h| - 1].step] else []
  }

  /** What the others put on the store before each request of message `i`; the last lot is still open. */
  function Lots(ps: seq<Player>, h: seq<Move>, i: nat): (r: seq<seq<Request>>)
    ensures |r| == |Steps(h, i)| + 1
  {
    if h == [] then [[]]
    else
      var lots, last := Lots(ps, h[..|h| - 1], i), h[|h| - 1];
      if last.who == i then lots + [[]]
      else lots[..|lots| - 1] + [lots[|lots| - 1] + Put(ps, last)]
  }

  /** The world message `i` runs in when others put these requests on the store. */
  function Seat(db: Db, ps: seq<Player>, i: nat, asks: seq<seq<Request>>): World
    requires i < |ps|
  {
    var p := ps[i];
    World(db, p.tape, p.dice, p.party.scope, p.party.session, p.party.minted, p.budget, [], [],
          Crowd(db, p.party, Parties(ps) - {p.party}, asks), [])
  }

  /** The run of message `i` on what it met so far, and its run with the store to itself. */
  function Run(db: Db, ps: seq<Player>, h: seq<Move>, i: nat): (r: Handling)
    requires i < |ps|
    ensures r.ends != []
  {
    Handle(Seat(db, ps, i, Lots(ps, h, i)), ps[i].message, AttemptsOf(ps[i]), 1, ps[i].delay)
  }

  function Solo(db: Db, ps: seq<Player>, i: nat): (r: Handling)
    requires i < |ps|
    ensures r.ends != []
  {
    Handle(Seat(db, ps, i, []), ps[i].message, AttemptsOf(ps[i]), 1, ps[i].delay)
  }

  /** Message `i` has its turn: it sends the next request of its run, unless it is done. */
  function TakeTurn(db: Db, ps: seq<Player>, h: seq<Move>, i: nat): seq<Move> {
    if i >= |ps| || |Steps(h, i)| >= |Run(db, ps, h, i).w.trail| then h
    else h + [Move(i, Run(db, ps, h, i).w.trail[|Steps(h, i)|])]
  }

  /** All moves under this schedule. */
  function Play(db: Db, ps: seq<Player>, schedule: seq<nat>): seq<Move> {
    if schedule == [] then []
    else TakeTurn(db, ps, Play(db, ps, schedule[..|schedule| - 1]), schedule[|schedule| - 1])
  }

  /** Messages that name disjoint servers, on a store where no row carries names of two. */
  ghost predicate Table(db: Db, ps: seq<Player>) {
    && Company(db, Parties(ps))
    && (forall i, j :: 0 <= i < j < |ps| ==> ps[i].party != ps[j].party)
    && (forall i :: 0 <= i < |ps| ==> Covers(ps[i].party.scope, db.catalog, ps[i].message))
  }

  /** So far message `i` sent what it sends alone. */
  ghost predicate OnCourse(db: Db, ps: seq<Player>, h: seq<Move>, i: nat)
    requires i < |ps|
  {
    && |Steps(h, i)| <= |Solo(db, ps, i).w.trail|
    && SameSteps(Steps(h, i), Solo(db, ps, i).w.trail[..|Steps(h, i)|])
  }

  /** Each request met the store that all earlier ones left, and was keyed there by its message's own rows. */
  ghost predicate Shared(db: Db, ps: seq<Player>, h: seq<Move>, k: nat)
    requires k < |h|
  {
    && h[k].who < |ps| && h[k].step.met == Apply(db, Past(ps, h[..k]))
    && LocalTo(h[k].step.met, ps[h[k].who].party, h[k].step.op)
  }

  ghost predicate Coherent(db: Db, ps: seq<Player>, h: seq<Move>) {
    && (forall i :: 0 <= i < |ps| ==> OnCourse(db, ps, h, i))
    && (forall k :: 0 <= k < |h| ==> Shared(db, ps, h, k))
  }

  /** Handling a message with all its attempts, with and without others around. */
  lemma {:induction false} HandleTwin(w: World, v: World, m: Message, tries: nat, attempt: nat, delay: int)
    requires Twin(w, v) && Covers(v.scope, v.db.catalog, m) && 1 <= attempt <= tries
    ensures
      var a, b := Handle(w, m, tries, attempt, delay), Handle(v, m, tries, attempt, delay);
      Twin(a.w, b.w) && a.ends == b.ends && a.sleeps == b.sleeps
    decreases tries - attempt
  {
    hide Process, Twin, Covers;
    ProcessTwin(w, v, m);
    var a, b := Process(w, m), Process(v, m);
    if !(a.status.Returned? || NoRetry(a.status.exn) || attempt == tries) {
      HandleTwin(a.w, b.w, m, tries, attempt + 1, delay + DELAY_STEP);
    }
  }

  // -- alone --------------------------------------------------------------------------------------

  lemma Seated(db: Db, ps: seq<Player>, i: nat)
    requires Table(db, ps) && i < |ps|
    ensures Parties(ps) == Us(Seat(db, ps, i, []).crowd) && Welcome(Seat(db, ps, i, []).crowd)
    ensures forall asks :: Us(Seat(db, ps, i, asks).crowd) == Parties(ps)
  {
    assert ps[i].party in Parties(ps);
    forall q ensures Only(Flat([], 0), q) == [] { }
    hide Company;
  }

  /** A message with the store to itself sends requests of its own, one it may ask for after the other. */
  lemma SoloAlone(db: Db, ps: seq<Player>, i: nat)
    requires Table(db, ps) && i < |ps|
    ensures Alone(Solo(db, ps, i).w) && Solo(db, ps, i).w.crowd == Seat(db, ps, i, []).crowd
  {
    hide Handle, Welcome, Twin, Covers, Company;
    var v := Seat(db, ps, i, []);
    Seated(db, ps, i);
    assert ByItself(v) == v;
    FreshTwin(v);
    HandleTwin(v, v, ps[i].message, AttemptsOf(ps[i]), 1, ps[i].delay);
    TwinIsAlone(Solo(db, ps, i).w, Solo(db, ps, i).w);
  }

  lemma TwinIsAlone(w: World, v: World)
    requires Twin(w, v)
    ensures Alone(v) && SameSteps(w.trail, v.trail) && Grounded(w) && w.log == v.log && w.errors == v.errors
  {
    hide Alone, Welcome, Grounded, SameSteps;
  }

  /** The first requests of a run alone can be asked for in this order. */
  lemma SoloWoven(db: Db, ps: seq<Player>, i: nat, steps: seq<Step>)
    requires Table(db, ps) && i < |ps| && |steps| <= |Solo(db, ps, i).w.trail|
    requires SameSteps(steps, Solo(db, ps, i).w.trail[..|steps|])
    ensures Woven(db, Parties(ps), Acts(ps[i].party, steps))
  {
    hide Handle, Woven, Company, Covers, Footed, Sound;
    var v := Solo(db, ps, i).w;
    SoloAlone(db, ps, i);
    Seated(db, ps, i);
    ActsUpTo(v.crowd, v.trail, |steps|);
    ActsSame(ps[i].party, steps, v.trail[..|steps|]);
  }

  // -- from one message's side --------------------------------------------------------------------

  lemma OnlyConcat(a: seq<Request>, b: seq<Request>, q: Party)
    ensures Only(a + b, q) == Only(a, q) + Only(b, q)
  {
    FilterConcat(a, b, By(q));
  }

  lemma OnlyPut(ps: seq<Player>, move: Move, q: Party)
    ensures Only(Put(ps, move), q) == if move.who < |ps| && ps[move.who].party == q then Put(ps, move) else []
    ensures forall r :: r in Put(ps, move) ==> move.who < |ps| && r.party == ps[move.who].party
  {
    if move.who < |ps| && ps[move.who].party == q { FilterAll(Put(ps, move), By(q)); } else { FilterNone(Put(ps, move), By(q)); }
  }

  /** The requests of message `j` among all. */
  lemma {:induction false} PastOnly(ps: seq<Player>, h: seq<Move>, j: nat)
    requires j < |ps| && forall a, b :: 0 <= a < b < |ps| ==> ps[a].party != ps[b].party
    ensures Only(Past(ps, h), ps[j].party) == Acts(ps[j].party, Steps(h, j))
  {
    if h != [] {
      var front, last := h[..|h| - 1], h[|h| - 1];
      var q := ps[j].party;
      PastOnly(ps, front, j);
      OnlyConcat(Past(ps, front), Put(ps, last), q);
      OnlyPut(ps, last, q);
      if last.who == j {
        assert (Steps(front, j) + [last.step])[..|Steps(front, j)|] == Steps(front, j);
      } else {
        assert Steps(h, j) == Steps(front, j) && Only(Put(ps, last), q) == [];
      }
    }
  }

  lemma {:induction false} FlatSame(a: seq<seq<Request>>, b: seq<seq<Request>>, k: nat)
    requires k <= |a| && k <= |b| && a[..k] == b[..k]
    ensures Flat(a, k) == Flat(b, k)
  {
    if k > 0 {
      assert a[..k][..k - 1] == a[..k - 1] && b[..k][..k - 1] == b[..k - 1] && a[..k][k - 1] == b[..k][k - 1];
      FlatSame(a, b, k - 1);
    }
  }

  lemma FlatOpen(lots: seq<seq<Request>>, more: seq<Request>)
    requires lots != []
    ensures
      var n := |lots| - 1;
      Flat(lots[..n] + [lots[n] + more], |lots|) == Flat(lots, |lots|) + more
  {
    var n := |lots| - 1;
    var lots' := lots[..n] + [lots[n] + more];
    assert lots'[..n] == lots[..n];
    FlatSame(lots', lots, n);
  }

  function AllLots(ps: seq<Player>, h: seq<Move>, i: nat): seq<Request> { Flat(Lots(ps, h, i), |Lots(ps, h, i)|) }

  lemma AllLotsGrow(ps: seq<Player>, h: seq<Move>, i: nat)
    requires h != []
    ensures
      var front, last := h[..|h| - 1], h[|h| - 1];
      AllLots(ps, h, i) == AllLots(ps, front, i) + if last.who == i then [] else Put(ps, last)
  {
    hide Put, Act;
    var front, last := h[..|h| - 1], h[|h| - 1];
    var lots, lots' := Lots(ps, front, i), Lots(ps, h, i);
    if last.who == i {
      assert lots'[..|lots|] == lots[..|lots|];
      FlatSame(lots', lots, |lots|);
      assert Chunk(lots', |lots|) == [];
    } else {
      FlatOpen(lots, Put(ps, last));
    }
  }

  /** The others' requests, lot by lot, are theirs among all. */
  lemma {:induction false} LotsOnly(ps: seq<Player>, h: seq<Move>, i: nat, q: Party)
    requires i < |ps| && q != ps[i].party
    ensures Only(AllLots(ps, h, i), q) == Only(Past(ps, h), q)
  {
    hide Put, Act, Only;
    if h == [] {
      var none: seq<seq<Request>> := [[]];
      assert Lots(ps, h, i) == none && Flat(none, 1) == Flat(none, 0) + Chunk(none, 0);
    } else {
      hide AllLots;
      var front, last := h[..|h| - 1], h[|h| - 1];
      LotsOnly(ps, front, i, q);
      AllLotsGrow(ps, h, i);
      OnlyConcat(Past(ps, front), Put(ps, last), q);
      OnlyPut(ps, last, q);
      OnlyConcat(AllLots(ps, front, i), Put(ps, last), q);
      if last.who == i {
        assert Only(Past(ps, front), q) + [] == Only(Past(ps, front), q);
        assert AllLots(ps, front, i) + [] == AllLots(ps, front, i);
      }
    }
  }

  lemma {:induction false} LotsForeign(ps: seq<Player>, h: seq<Move>, i: nat)
    requires i < |ps| && forall a, b :: 0 <= a < b < |ps| ==> ps[a].party != ps[b].party
    ensures forall k, r :: 0 <= k < |Lots(ps, h, i)| && r in Lots(ps, h, i)[k] ==> r.party in Parties(ps) - {ps[i].party}
  {
    if h != [] {
      var front, last := h[..|h| - 1], h[|h| - 1];
      LotsForeign(ps, front, i);
      OnlyPut(ps, last, ps[i].party);
      var lots := Lots(ps, front, i);
      if last.who != i && last.who < |ps| { assert ps[last.who] in ps; }
      assert forall k :: 0 <= k < |lots| - 1 ==> Lots(ps, h, i)[k] == lots[k];
    }
  }

  lemma {:induction false} HeardSame(c: Crowd, asks: seq<seq<Request>>, s: seq<Step>)
    requires |s| <= |c.asks| && |s| <= |asks| && c.asks[..|s|] == asks[..|s|]
    ensures Heard(c, s) == Heard(c.(asks := asks), s)
  {
    if s != [] {
      var n := |s| - 1;
      assert c.asks[..|s|][..n] == c.asks[..n] && asks[..|s|][..n] == asks[..n];
      assert c.asks[..|s|][n] == asks[..|s|][n];
      HeardSame(c, asks, s[..n]);
    }
  }

  lemma HeardOwn(c: Crowd, s: seq<Step>, lots: seq<seq<Request>>)
    requires s != [] && c.asks == lots + [[]] && |lots| == |s|
    ensures Heard(c, s) + Chunk(c.asks, |s|) == Heard(c.(asks := lots), s[..|s| - 1]) + Chunk(lots, |s| - 1) + Act(c.me, s[|s| - 1])
  {
    hide Act;
    HeardSame(c, lots, s[..|s| - 1]);
  }

  lemma HeardOther(c: Crowd, s: seq<Step>, lots: seq<seq<Request>>, put: seq<Request>)
    requires |lots| == |s| + 1 && c.asks == lots[..|s|] + [lots[|s|] + put]
    ensures Heard(c, s) + Chunk(c.asks, |s|) == Heard(c.(asks := lots), s) + Chunk(lots, |s|) + put
  {
    HeardSame(c, lots, s);
    hide Heard;
    assert Heard(c, s) + (lots[|s|] + put) == Heard(c, s) + lots[|s|] + put;
  }

  lemma ActSame(p: Party, a: Step, b: Step)
    requires a.op == b.op && a.id == b.id && a.fault == b.fault
    ensures Act(p, a) == Act(p, b)
  {
  }

  lemma NoneHeard(c: Crowd, s: seq<Step>)
    requires s == [] && c.asks == [[]]
    ensures Heard(c, s) + Chunk(c.asks, |s|) == []
  {
  }

  lemma PutOwn(ps: seq<Player>, move: Move)
    requires move.who < |ps|
    ensures Put(ps, move) == Act(ps[move.who].party, move.step)
  {
  }

  /** Message `i`'s requests woven into what it met are all requests that landed. */
  lemma {:induction false} HeardIsPast(ps: seq<Player>, h: seq<Move>, i: nat, c: Crowd, s: seq<Step>)
    requires i < |ps| && c.me == ps[i].party && c.asks == Lots(ps, h, i) && SameSteps(s, Steps(h, i))
    ensures Heard(c, s) + Chunk(c.asks, |s|) == Past(ps, h)
  {
    hide Heard, Chunk, Act, Flat, Put;
    if h == [] {
      NoneHeard(c, s);
    } else {
      var front, last := h[..|h| - 1], h[|h| - 1];
      var lots := Lots(ps, front, i);
      var n := |Steps(front, i)|;
      assert SameSteps(s[..n], Steps(front, i));
      HeardIsPast(ps, front, i, c.(asks := lots), s[..n]);
      assert Past(ps, h) == Past(ps, front) + Put(ps, last);
      if last.who == i {
        assert c.asks == lots + [[]] && |s| == n + 1 && s[n].op == last.step.op && s[n].id == last.step.id && s[n].fault == last.step.fault;
        hide Lots, Past, Steps;
        ActSame(c.me, s[n], last.step);
        PutOwn(ps, last);
        HeardOwn(c, s, lots);
      } else {
        assert c.asks == lots[..n] + [lots[n] + Put(ps, last)] && s[..n] == s;
        hide Lots, Past, Steps;
        HeardOther(c, s, lots, Put(ps, last));
      }
    }
  }

  // -- one turn -------------------------------------------------------------------------------------

  /** What the others did so far is something they could have asked for alone. */
  lemma LotsInvited(db: Db, ps: seq<Player>, h: seq<Move>, i: nat)
    requires Table(db, ps) && i < |ps| && forall j :: 0 <= j < |ps| ==> OnCourse(db, ps, h, j)
    ensures Welcome(Seat(db, ps, i, Lots(ps, h, i)).crowd)
  {
    hide Woven, Company, Covers, Handle, Only, Flat, Lots;
    var c := Seat(db, ps, i, Lots(ps, h, i)).crowd;
    Seated(db, ps, i);
    LotsForeign(ps, h, i);
    forall q | q in c.others ensures Woven(db, Parties(ps), Only(Flat(c.asks, |c.asks|), q)) {
      LotsOnly(ps, h, i, q);
      var p :| p in ps && p.party == q;
      var j :| 0 <= j < |ps| && ps[j] == p;
      PastOnly(ps, h, j);
      assert OnCourse(db, ps, h, j);
      SoloWoven(db, ps, j, Steps(h, j));
    }
  }

  /** The run of message `i` on what it met so far goes as its run alone. */
  lemma RunIsTwin(db: Db, ps: seq<Player>, h: seq<Move>, i: nat)
    requires Table(db, ps) && i < |ps| && forall j :: 0 <= j < |ps| ==> OnCourse(db, ps, h, j)
    ensures Twin(Run(db, ps, h, i).w, Solo(db, ps, i).w) && Run(db, ps, h, i).ends == Solo(db, ps, i).ends
    ensures Run(db, ps, h, i).w.crowd == Seat(db, ps, i, Lots(ps, h, i)).crowd
  {
    hide Handle, Welcome, Twin, Covers, Company, OnCourse, Lots;
    var w := Seat(db, ps, i, Lots(ps, h, i));
    LotsInvited(db, ps, h, i);
    FreshTwin(w);
    assert ByItself(w) == Seat(db, ps, i, []);
    HandleTwin(w, ByItself(w), ps[i].message, AttemptsOf(ps[i]), 1, ps[i].delay);
  }

  /** The next request of message `i` meets the store all requests so far have left. */
  lemma NextMeets(db: Db, ps: seq<Player>, h: seq<Move>, i: nat)
    requires Table(db, ps) && i < |ps| && (forall j :: 0 <= j < |ps| ==> OnCourse(db, ps, h, j))
    requires |Steps(h, i)| < |Run(db, ps, h, i).w.trail|
    ensures
      var step := Run(db, ps, h, i).w.trail[|Steps(h, i)|];
      step.met == Apply(db, Past(ps, h)) && LocalTo(step.met, ps[i].party, step.op)
  {
    hide Handle, Welcome, Alone, Lots, Heard, Past, Covers, Company, Local, Apply;
    RunIsTwin(db, ps, h, i);
    var w, v, n := Run(db, ps, h, i).w, Solo(db, ps, i).w, |Steps(h, i)|;
    assert OnCourse(db, ps, h, i);
    HeardIsPast(ps, h, i, w.crowd, w.trail[..n]);
    StepLocal(w, v, n);
  }

  lemma StepsSnoc(h: seq<Move>, move: Move, i: nat)
    ensures Steps(h + [move], i) == Steps(h, i) + if move.who == i then [move.step] else []
  {
    assert (h + [move])[..|h|] == h;
  }

  lemma TurnKeeps(db: Db, ps: seq<Player>, h: seq<Move>, i: nat)
    requires Table(db, ps) && Coherent(db, ps, h)
    ensures Coherent(db, ps, TakeTurn(db, ps, h, i))
    ensures i < |ps| ==> |Run(db, ps, h, i).w.trail| == |Solo(db, ps, i).w.trail|
  {
    hide Handle, Table, Steps, Past, Apply, Local, Lots, Grounded, Alone, Welcome;
    if i < |ps| {
      RunIsTwin(db, ps, h, i);
      var sent, n := Run(db, ps, h, i).w.trail, |Steps(h, i)|;
      if n < |sent| {
        var move := Move(i, sent[n]);
        NextMeets(db, ps, h, i);
        forall j | 0 <= j < |ps| ensures OnCourse(db, ps, h + [move], j) {
          StepsSnoc(h, move, j);
          assert OnCourse(db, ps, h, j);
        }
        forall k | 0 <= k < |h + [move]| ensures Shared(db, ps, h + [move], k) {
          if k < |h| {
            assert Shared(db, ps, h, k) && (h + [move])[..k] == h[..k];
          } else {
            assert (h + [move])[..k] == h;
          }
        }
      }
    }
  }

  // -- any schedule ---------------------------------------------------------------------------------

  lemma {:induction false} PlayCoherent(db: Db, ps: seq<Player>, schedule: seq<nat>)
    requires Table(db, ps)
    ensures Coherent(db, ps, Play(db, ps, schedule))
  {
    hide Table, TakeTurn, Shared, Handle;
    if schedule != [] {
      PlayCoherent(db, ps, schedule[..|schedule| - 1]);
      TurnKeeps(db, ps, Play(db, ps, schedule[..|schedule| - 1]), schedule[|schedule| - 1]);
    }
  }

  /** The turns this schedule gives message `i`. */
  function Turns(schedule: seq<nat>, i: nat): nat {
    if schedule == [] then 0
    else Turns(schedule[..|schedule| - 1], i) + if schedule[|schedule| - 1] == i then 1 else 0
  }

  /** A message sends one request at each of its turns, until it is done. */
  lemma {:induction false} SentByTurns(db: Db, ps: seq<Player>, schedule: seq<nat>, i: nat)
    requires Table(db, ps) && i < |ps|
    ensures
      var turns, all := Turns(schedule, i), |Solo(db, ps, i).w.trail|;
      |Steps(Play(db, ps, schedule), i)| == if turns < all then turns else all
  {
    hide Table, Shared, Handle, Lots;
    if schedule != [] {
      var before, who := schedule[..|schedule| - 1], schedule[|schedule| - 1];
      var h := Play(db, ps, before);
      SentByTurns(db, ps, before, i);
      PlayCoherent(db, ps, before);
      TurnKeeps(db, ps, h, who);
      if who < |ps| && |Steps(h, who)| < |Run(db, ps, h, who).w.trail| {
        StepsSnoc(h, Move(who, Run(db, ps, h, who).w.trail[|Steps(h, who)|]), i);
      }
    }
  }

  lemma {:induction false} PastParties(ps: seq<Player>, h: seq<Move>)
    ensures forall r :: r in Past(ps, h) ==> r.party in Parties(ps)
  {
    if h != [] {
      PastParties(ps, h[..|h| - 1]);
      OnlyPut(ps, h[|h| - 1], Party(Scope({}, {}), 0, 0));
      if h[|h| - 1].who < |ps| { assert ps[h[|h| - 1].who] in ps; }
    }
  }

  /** All requests so far are in order, message by message. */
  lemma PastIsWoven(db: Db, ps: seq<Player>, h: seq<Move>)
    requires Table(db, ps) && Coherent(db, ps, h)
    ensures Woven(db, Parties(ps), Past(ps, h))
  {
    hide Woven, Company, Covers, Handle, Only, Past, Shared;
    PastParties(ps, h);
    forall q | q in Parties(ps) ensures Woven(db, Parties(ps), Only(Past(ps, h), q)) {
      var p :| p in ps && p.party == q;
      var j :| 0 <= j < |ps| && ps[j] == p;
      PastOnly(ps, h, j);
      assert OnCourse(db, ps, h, j);
      SoloWoven(db, ps, j, Steps(h, j));
    }
    Braided(db, Parties(ps), Past(ps, h));
  }

  /** Message `i` has sent all its requests: its rows are as its run alone leaves them. */
  lemma RowsAsAlone(db: Db, ps: seq<Player>, h: seq<Move>, i: nat)
    requires Table(db, ps) && Coherent(db, ps, h) && i < |ps| && |Steps(h, i)| == |Solo(db, ps, i).w.trail|
    ensures ViewFor(Apply(db, Past(ps, h)), ps[i].party) == ViewFor(Solo(db, ps, i).w.db, ps[i].party)
  {
    hide Woven, Company, Covers, Handle, Past, Shared, Agree, Footed, Sound, View;
    var v := Solo(db, ps, i).w;
    SoloAlone(db, ps, i);
    PastIsWoven(db, ps, h);
    Meets(db, Parties(ps), Past(ps, h));
    PastOnly(ps, h, i);
    assert OnCourse(db, ps, h, i) && v.trail[..|v.trail|] == v.trail;
    ActsSame(ps[i].party, Steps(h, i), v.trail);
    assert ps[i].party in Parties(ps);
    AgreeMeans(v.db, Apply(db, Past(ps, h)), Parties(ps), ps[i].party, NextKey(ps[i].party, Acts(ps[i].party, v.trail)));
  }

  /**
   Any number of messages that name disjoint servers, any schedule of their requests on one
   store, any faults: every request meets the store all earlier ones left and is keyed there
   by its message's own rows, each message sends what it sends alone, its attempts end as they
   do alone, with the same ack or nack, log and errors, and once it has had its turns its rows
   are those of its run alone.
   */
  lemma EachAsAlone(db: Db, ps: seq<Player>, schedule: seq<nat>, i: nat)
    requires Table(db, ps) && i < |ps|
    ensures
      var h := Play(db, ps, schedule);
      var mine, alone := Run(db, ps, h, i), Solo(db, ps, i);
      && (forall k :: 0 <= k < |h| ==> Shared(db, ps, h, k))
      && OnCourse(db, ps, h, i)
      && mine.ends == alone.ends && (Acks(mine) <==> Acks(alone)) && mine.w.log == alone.w.log && mine.w.errors == alone.w.errors
      && (Turns(schedule, i) >= |alone.w.trail| ==>
            && SameSteps(Steps(h, i), alone.w.trail)
            && ViewFor(Apply(db, Past(ps, h)), ps[i].party) == ViewFor(alone.w.db, ps[i].party))
  {
    hide Table, Handle, Shared, View, Alone, Grounded, Welcome, Lots, Past;
    var h := Play(db, ps, schedule);
    PlayCoherent(db, ps, schedule);
    RunIsTwin(db, ps, h, i);
    SentByTurns(db, ps, schedule, i);
    if Turns(schedule, i) >= |Solo(db, ps, i).w.trail| {
      RowsAsAlone(db, ps, h, i);
      assert Solo(db, ps, i).w.trail[..|Steps(h, i)|] == Solo(db, ps, i).w.trail;
    }
  }
}
