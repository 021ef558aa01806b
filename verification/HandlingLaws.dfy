/** Which failures of a message are tried again, from which store, and after how long. */
module HandlingLaws {
  import opened Basics
  import opened Cmdb
  import opened Retry
  import opened Attachments
  import opened Create
  import opened Runs
  import opened Service

  /** The world after `k` attempts at a message, one after the other. */
  function Attempted(w: World, m: Message, k: nat): World {
    if k == 0 then w else Process(Attempted(w, m, k - 1), m).w
  }

  /** How attempt number `k`, counted from nought, ends. */
  function EndAt(w: World, m: Message, k: nat): Status { Process(Attempted(w, m, k), m).status }

  /** A failure a repeat may cure: of the transport, or a data or other error that reached the message. */
  predicate Curable(e: Exn) { e == Transport || e == Perm(DataError) || e == Perm(OtherError) }

  lemma CurableOrFinal(e: Exn)
    ensures Curable(e) <==> !NoRetry(e)
    ensures Curable(e) || e == CmdbAbort || e == ContractError || e == Perm(KeyError)
  {
    match e
    case Perm(why) =>
      match why { case DataError => case KeyError => case OtherError => }
    case _ =>
  }

  lemma {:induction false} NextWorld(w: World, m: Message, k: nat)
    ensures Attempted(w, m, k + 1) == Attempted(Process(w, m).w, m, k)
  {
    hide Process;
    if k > 0 { NextWorld(w, m, k - 1); }
  }

  /** Each attempt was made on the world the one before it left, and the last one's is what remains. */
  ghost predicate Ran(w: World, m: Message, h: Handling) {
    h.w == Attempted(w, m, |h.ends|) && forall k :: 0 <= k < |h.ends| ==> h.ends[k] == EndAt(w, m, k)
  }

  /** Of `left` attempts another one is made exactly while some are left and the last made failed curably. */
  ghost predicate MadeWhile(ends: seq<Status>, left: nat) {
    && 1 <= |ends| <= left
    && forall k :: 0 <= k < |ends| ==> (k + 1 < |ends| <==> k + 1 < left && ends[k].Raised? && Curable(ends[k].exn))
  }

  /** The sleeps between `n` attempts grow by five seconds each. */
  ghost predicate Grows(sleeps: seq<int>, n: nat, delay: int) {
    |sleeps| + 1 == n && forall k :: 0 <= k < |sleeps| ==> sleeps[k] == delay + 5 * k
  }

  lemma {:induction false} HandleFollows(w: World, m: Message, tries: nat, attempt: nat, delay: int)
    requires 1 <= attempt <= tries
    ensures
      var h := Handle(w, m, tries, attempt, delay);
      Ran(w, m, h) && MadeWhile(h.ends, tries - attempt + 1) && Grows(h.sleeps, |h.ends|, delay)
    decreases tries - attempt
  {
    hide Process, Ran, Extends;
    var o, h := Process(w, m), Handle(w, m, tries, attempt, delay);
    if o.status.Raised? { CurableOrFinal(o.status.exn); }
    if o.status.Raised? && Curable(o.status.exn) && attempt < tries {
      var rest := Handle(o.w, m, tries, attempt + 1, delay + 5);
      HandleFollows(o.w, m, tries, attempt + 1, delay + 5);
      assert h == Handling(rest.w, [o.status] + rest.ends, [delay] + rest.sleeps);
      RanOn(w, m, o, rest, h.sleeps);
      MadeOn(o.status, rest.ends, tries - attempt);
    } else {
      assert h == Handling(o.w, [o.status], []);
      RanOnce(w, m);
    }
  }

  lemma RanOnce(w: World, m: Message)
    ensures Ran(w, m, Handling(Process(w, m).w, [Process(w, m).status], []))
  {
    hide Process;
    assert Attempted(w, m, 0) == w;
  }

  lemma RanOn(w: World, m: Message, o: Outcome, rest: Handling, sleeps: seq<int>)
    requires o == Process(w, m) && Ran(o.w, m, rest)
    ensures Ran(w, m, Handling(rest.w, [o.status] + rest.ends, sleeps))
  {
    hide Process, Extends;
    NextWorld(w, m, |rest.ends|);
    var ends := [o.status] + rest.ends;
    forall k | 0 <= k < |ends| ensures ends[k] == EndAt(w, m, k) {
      if k > 0 { NextWorld(w, m, k - 1); }
    }
  }

  lemma MadeOn(end: Status, ends: seq<Status>, left: nat)
    requires MadeWhile(ends, left) && end.Raised? && Curable(end.exn)
    ensures MadeWhile([end] + ends, left + 1)
  {
    hide Curable;
  }

  /**
   Handling a message: attempt `k + 1` is made, on the world attempt `k` left, exactly while
   attempts are left and `k` failed with a transport, data or other error; a return, an
   abort, a broken message and a missing key end it at once.
   */
  lemma HandledExactly(w: World, m: Message, tries: nat, delay: int)
    requires tries >= 1
    ensures
      var h := Handle(w, m, tries, 1, delay);
      Ran(w, m, h) && MadeWhile(h.ends, tries) && Grows(h.sleeps, |h.ends|, delay)
  {
    hide Process, Handle, Ran;
    HandleFollows(w, m, tries, 1, delay);
  }

  /** Nacked before its attempts are used up: by an abort, a broken message or a missing key. */
  lemma NackedEarly(w: World, m: Message, tries: nat, delay: int)
    requires tries >= 1
    ensures
      var h := Handle(w, m, tries, 1, delay);
      var last := h.ends[|h.ends| - 1];
      !Acks(h) && |h.ends| < tries ==> last == Raised(CmdbAbort) || last == Raised(ContractError) || last == Raised(Perm(KeyError))
  {
    hide Process, Handle, Ran;
    HandleFollows(w, m, tries, 1, delay);
    var h := Handle(w, m, tries, 1, delay);
    if !Acks(h) { CurableOrFinal(h.ends[|h.ends| - 1].exn); }
  }

  /** A transport failure of any but the last attempt is followed by another one, started on what it left. */
  lemma TransportIsRetried(w: World, m: Message, tries: nat, delay: int, k: nat)
    requires tries >= 1 && k < |Handle(w, m, tries, 1, delay).ends| && k + 1 < tries
    requires Process(Attempted(w, m, k), m).status == Raised(Transport)
    ensures
      var h := Handle(w, m, tries, 1, delay);
      k + 1 < |h.ends| && h.ends[k + 1] == Process(Process(Attempted(w, m, k), m).w, m).status
  {
    hide Process, Handle, Extends;
    HandleFollows(w, m, tries, 1, delay);
    var h := Handle(w, m, tries, 1, delay);
    assert h.ends[k] == EndAt(w, m, k);
    assert h.ends[k + 1] == EndAt(w, m, k + 1);
  }
}
