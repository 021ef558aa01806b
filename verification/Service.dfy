/** One message from delivery to ack or nack: processing retries, then confirmation retries. */
module Service {
  import opened Basics
  import opened Cmdb
  import opened Retry
  import opened RetryProofs
  import opened StoreFacts
  import opened Attachments
  import opened AttachProofs
  import opened AttachConverges
  import opened Tags
  import opened Create
  import opened Invariants
  import opened Runs
  import opened CreateProofs
  import opened CreateConverges
  import opened RecreateProofs
  import opened AttachTidy
  import opened RowProofs
  import Handler
  import Drain

  const DELAY_STEP := 5

  /** Failures that a repeat cannot cure: permanent ones of the handler's own, and a missing key. */
  predicate NoRetry(e: Exn) { e.CmdbAbort? || e.ContractError? || e == Perm(KeyError) }

  /** How handling a message went: what the store became, each attempt's end, and the sleeps between them. */
  datatype Handling = Handling(w: World, ends: seq<Status>, sleeps: seq<int>)

  /** Processing attempts from number `attempt` on. */
  function Handle(w: World, m: Message, tries: nat, attempt: nat, delay: int): (h: Handling)
    requires 1 <= attempt <= tries
    ensures h.ends != [] && Extends(w, h.w)
    decreases tries - attempt
  {
    var o := Process(w, m);
    if o.status.Returned? || NoRetry(o.status.exn) || attempt == tries then Handling(o.w, [o.status], [])
    else
      var rest := Handle(o.w, m, tries, attempt + 1, delay + DELAY_STEP);
      Handling(rest.w, [o.status] + rest.ends, [delay] + rest.sleeps)
  }

  predicate Acks(h: Handling)
    requires h.ends != []
  {
    h.ends[|h.ends| - 1].Returned?
  }

  // -- when a message is acked, and how long it took -------------------------------------------------

  /** An end that is retried while attempts are left. */
  predicate Retried(s: Status) { s.Raised? && !NoRetry(s.exn) }

  lemma {:induction false} EndsShape(w: World, m: Message, tries: nat, attempt: nat, delay: int)
    requires 1 <= attempt <= tries
    ensures
      var h := Handle(w, m, tries, attempt, delay);
      && |h.ends| <= tries - attempt + 1 && |h.sleeps| == |h.ends| - 1
      && (forall i :: 0 <= i < |h.ends| - 1 ==> Retried(h.ends[i]))
      && (Retried(h.ends[|h.ends| - 1]) ==> |h.ends| == tries - attempt + 1)
      && (forall i :: 0 <= i < |h.sleeps| ==> h.sleeps[i] == delay + DELAY_STEP * i)
    decreases tries - attempt
  {
    hide Process;
    var o := Process(w, m);
    if Retried(o.status) && attempt < tries {
      EndsShape(o.w, m, tries, attempt + 1, delay + DELAY_STEP);
    }
  }

  /**
   The outcome of a message: acked exactly when some attempt returned normally;
   otherwise nacked, because an attempt failed for good or every attempt failed.
   */
  lemma AckedExactly(w: World, m: Message, tries: nat, delay: int)
    requires tries >= 1
    ensures
      var h := Handle(w, m, tries, 1, delay);
      && (Acks(h) <==> exists i :: 0 <= i < |h.ends| && h.ends[i].Returned?)
      && (!Acks(h) <==>
            || (exists i :: 0 <= i < |h.ends| && h.ends[i].Raised? && NoRetry(h.ends[i].exn))
            || (|h.ends| == tries && forall i :: 0 <= i < |h.ends| ==> Retried(h.ends[i])))
  {
    hide Handle;
    EndsShape(w, m, tries, 1, delay);
    var h := Handle(w, m, tries, 1, delay);
    var last := |h.ends| - 1;
    assert h.ends[last].Returned? || h.ends[last].Raised?;
  }

  /** An attempt's end, as the interleaved tasks see it. */
  function EndOf(s: Status): Drain.End {
    if s.Returned? then Drain.Fine else if NoRetry(s.exn) then Drain.Fatal else Drain.Retryable
  }

  function EndsOf(ends: seq<Status>): (r: seq<Drain.End>)
    ensures |r| == |ends| && forall i :: 0 <= i < |ends| ==> r[i] == EndOf(ends[i])
  {
    if ends == [] then [] else [EndOf(ends[0])] + EndsOf(ends[1..])
  }

  /** A message handled in one go ends as its task does in every interleaving. */
  lemma HandledDecides(w: World, m: Message, c: Drain.Config)
    requires c.maxRetries >= 1
    ensures
      var h := Handle(w, m, c.maxRetries, 1, c.retryDelay);
      Drain.Decides(c, Acks(h), EndsOf(h.ends))
  {
    hide Handle;
    EndsShape(w, m, c.maxRetries, 1, c.retryDelay);
  }

  function Sum(s: seq<int>): int { if s == [] then 0 else Sum(s[..|s| - 1]) + s[|s| - 1] }

  lemma {:induction false} SumOfSteps(s: seq<int>, delay: int)
    requires forall i :: 0 <= i < |s| ==> s[i] == delay + DELAY_STEP * i
    ensures 2 * Sum(s) == 2 * |s| * delay + DELAY_STEP * |s| * (|s| - 1)
  {
    if s != [] { SumOfSteps(s[..|s| - 1], delay); }
  }

  lemma MoreSleepsCostMore(k: nat, n: nat, delay: nat)
    requires k <= n
    ensures 2 * k * delay + DELAY_STEP * k * (k - 1) <= 2 * n * delay + DELAY_STEP * n * (n - 1)
    decreases n - k
  {
    if k < n {
      assert 2 * (k + 1) * delay + DELAY_STEP * (k + 1) * k == 2 * k * delay + DELAY_STEP * k * (k - 1) + 2 * delay + 2 * DELAY_STEP * k;
      MoreSleepsCostMore(k + 1, n, delay);
    }
  }

  /**
   The time slept between attempts is at most (m - 1) d + 5 (m - 1) (m - 2) / 2 for
   m attempts and first delay d, and exactly that when all of them were made.
   */
  lemma SleepBudget(w: World, m: Message, tries: nat, delay: nat)
    requires tries >= 1
    ensures
      var h := Handle(w, m, tries, 1, delay);
      var budget := 2 * (tries - 1) * delay + DELAY_STEP * (tries - 1) * (tries - 2);
      && 2 * Sum(h.sleeps) <= budget
      && (|h.ends| == tries ==> 2 * Sum(h.sleeps) == budget)
  {
    hide Handle;
    EndsShape(w, m, tries, 1, delay);
    var h := Handle(w, m, tries, 1, delay);
    SumOfSteps(h.sleeps, delay);
    MoreSleepsCostMore(|h.sleeps|, tries - 1, delay);
  }

  // -- what an ack means for an attach, and what it does not mean for a create ----------------------------

  lemma NextDelivery(w: World, m: AttachMsg, k: nat)
    ensures
      var before := Deliveries(w, m, k);
      var o := Attach(before.w, m);
      Deliveries(w, m, k + 1) == History(o.w, before.returned || o.status.Returned?)
  {
    hide Attach;
  }

  lemma FirstDelivery(w: World, m: AttachMsg)
    ensures Deliveries(w, m, 0) == History(w, false)
  {
    hide Attach;
  }

  /** The attempts at an attach message are deliveries of it. */
  lemma {:induction false} AttemptsAreDeliveries(w: World, m: AttachMsg, k: nat, tries: nat, attempt: nat, delay: int)
    requires 1 <= attempt <= tries
    ensures
      var h := Handle(Deliveries(w, m, k).w, AttachAddress(m), tries, attempt, delay);
      var all := Deliveries(w, m, k + |h.ends|);
      h.w == all.w && (Acks(h) ==> all.returned)
    decreases tries - attempt
  {
    hide CreateServer, Delete, Resize, Attach, Detach, Deliveries;
    var before := Deliveries(w, m, k);
    NextDelivery(w, m, k);
    var o := Process(before.w, AttachAddress(m));
    if Retried(o.status) && attempt < tries {
      AttemptsAreDeliveries(w, m, k + 1, tries, attempt + 1, delay + DELAY_STEP);
    }
  }

  /** An acked attach on a server that was there without the address: exactly one row for it. */
  lemma AckedAttach(w: World, m: AttachMsg, s: Server, tries: nat, delay: int)
    requires Quiet(w) && Sound(w) && m.instance.Some? && m.port.Some? && tries >= 1
    requires First(w.db.servers, Matching(None, Some(m.instance.value))) == Some(s)
    requires OnHost(w.db, m.port.value.addr, m.instance.value) == []
    requires Honest(Handle(w, AttachAddress(m), tries, 1, delay).w.log)
    ensures
      var h := Handle(w, AttachAddress(m), tries, 1, delay);
      && Converging(w.db, h.w.db, m, s.id)
      && (Acks(h) ==> |OnHost(h.w.db, m.port.value.addr, m.instance.value)| == 1)
  {
    hide Handle, Deliveries, Converging, OnHost, Honest, Keyed, Unborn;
    var h := Handle(w, AttachAddress(m), tries, 1, delay);
    AttemptsAreDeliveries(w, m, 0, tries, 1, delay);
    FirstDelivery(w, m);
    AttachOnce(w, m, s, |h.ends|);
  }

  lemma NextCreate(w: World, m: CreateMsg, k: nat)
    ensures Creates(w, m, k + 1).w == CreateServer(Creates(w, m, k).w, m).w
  {
    hide CreateServer;
  }

  /** The attempts at a create message are attempts in a row, and the last one decides. */
  lemma {:induction false} AttemptsAreCreates(w: World, m: CreateMsg, k: nat, tries: nat, attempt: nat, delay: int)
    requires 1 <= attempt <= tries
    ensures
      var h := Handle(Creates(w, m, k).w, CreateInstance(m), tries, attempt, delay);
      var o := CreateServer(Creates(w, m, k + |h.ends| - 1).w, m);
      h.w == o.w && h.ends[|h.ends| - 1] == o.status
    decreases tries - attempt
  {
    hide CreateServer, Delete, Resize, Attach, Detach, Creates;
    var before := Creates(w, m, k);
    NextCreate(w, m, k);
    var o := Process(before.w, CreateInstance(m));
    if Retried(o.status) && attempt < tries {
      AttemptsAreCreates(w, m, k + 1, tries, attempt + 1, delay + DELAY_STEP);
    }
  }

  lemma LastCreate(w: World, m: CreateMsg, tries: nat, delay: int)
    requires tries >= 1
    ensures
      var h := Handle(w, CreateInstance(m), tries, 1, delay);
      var o := CreateServer(Creates(w, m, |h.ends| - 1).w, m);
      h.w == o.w && (Acks(h) ==> o == Outcome(h.w, Returned))
  {
    hide Handle, CreateServer, Creates;
    FirstCreate(w, m);
    AttemptsAreCreates(w, m, 0, tries, 1, delay);
  }

  lemma FirstCreate(w: World, m: CreateMsg)
    ensures Creates(w, m, 0) == History(w, false)
  {
    hide CreateServer;
  }

  /**
   An acked create whose last attempt got past re-creating the row: one row of this
   hostname or uuid, with the whole plan on it or marked as in error.
   */
  lemma AckedCreate(w: World, m: CreateMsg, tries: nat, delay: int) returns (n: nat, cols: Cols)
    requires Quiet(w) && Sound(w) && Usable(m) && SafeTags(Ctx(w, m), w.db.catalog) && tries >= 1
    ensures
      var h := Handle(w, CreateInstance(m), tries, 1, delay);
      var before := Creates(w, m, n).w;
      && h.w == CreateServer(before, m).w
      && (Acks(h) && GotPast(before, m) ==> Settled(w, before, Outcome(h.w, Returned), m, cols))
  {
    hide *;
    var h := Handle(w, CreateInstance(m), tries, 1, delay);
    n := |h.ends| - 1;
    LastCreate(w, m, tries, delay);
    cols := CreateRetried(w, m, n);
  }

  lemma ContextReadOnce(w: World, m: CreateMsg, i: Instance)
    requires Quiet(w) && m.instance == Some(i) && i.name.Some? && i.id.Some?
    requires First(WithoutState(CmdbTags(i.metadata)), HasKey(CAP_TENANT_TAG)).None?
    requires w.tape != [] && w.tape[0] == Replies
    ensures
      var c := BuildContext(w, m);
      c.Fine? && c.value.Some? && c.w.db == w.db && Quiet(c.w) && c.w.tape == w.tape[1..]
  {
    hide KeptTags, CmdbTags, WithoutState, IsK8sNode, Read;
    var op := SelectCloud(m.project);
    assert Attempts(w, op, NoSelector, RAISES_CLOUD, 1) == Issue(w, op, NoSelector, RAISES_CLOUD, 1);
    assert Exchange(w, op).answer.Got?;
  }

  lemma RefusedRow(w: World, ctx: Context, why: Permanent)
    requires Quiet(w) && w.tape != [] && w.tape[0] == Rejected(why)
    ensures
      var s := Recreate(w, ctx);
      s.Broken? && s.exn == CmdbAbort && s.w.db == w.db
  {
    hide RemoveAll;
    var op := SelectServers(NonEmpty(ctx.hostname), NonEmpty(ctx.uuid));
    assert Attempts(w, op, NoSelector, RAISES_SELECT, 1) == Issue(w, op, NoSelector, RAISES_SELECT, 1);
    assert Exchange(w, op).answer == Threw(Perm(why));
  }

  /**
   An ack does not mean that a server was created: if the row's re-creation is refused
   for good, the handler returns normally and the message is acked with nothing done.
   */
  lemma AckedWithoutServer(w: World, m: CreateMsg, i: Instance, tries: nat, delay: int, why: Permanent)
    requires Quiet(w) && tries >= 1 && m.instance == Some(i) && i.name.Some? && i.id.Some?
    requires First(WithoutState(CmdbTags(i.metadata)), HasKey(CAP_TENANT_TAG)).None?
    requires |w.tape| >= 2 && w.tape[0] == Replies && w.tape[1] == Rejected(why)
    ensures
      var h := Handle(w, CreateInstance(m), tries, 1, delay);
      Acks(h) && h.w.db == w.db
  {
    hide BuildContext, Recreate, Attach, Detach, Delete, Resize, Fill, First, WithoutState, CmdbTags;
    var w0 := w.(errors := []);
    ContextReadOnce(w0, m, i);
    var c := BuildContext(w0, m);
    RefusedRow(c.w, c.value.value, why);
  }

  lemma {:induction false} CreatesSteady(w: World, m: CreateMsg, n: nat)
    requires Steady(w) && Usable(m)
    ensures Steady(Creates(w, m, n).w)
  {
    hide CreateServer, Steady, NamesUnique, KindsUnique;
    if n > 0 {
      CreatesSteady(w, m, n - 1);
      CreateSteady(Creates(w, m, n - 1).w, m);
    }
  }

  /**
   When an ack means a server: an acked create left the row it re-created exactly when its
   last attempt got past the re-creation; otherwise that re-creation was refused for good
   and no server came of it.
   */
  lemma AckedCreateExactly(w: World, m: CreateMsg, tries: nat, delay: int) returns (n: nat)
    requires Quiet(w) && Sound(w) && Usable(m) && tries >= 1
    ensures
      var h := Handle(w, CreateInstance(m), tries, 1, delay);
      var before := Creates(w, m, n).w;
      && h.w == CreateServer(before, m).w
      && (Acks(h) ==>
            && (HasRow(h.w.db, FreshId(before)) <==> GotPast(before, m))
            && (!GotPast(before, m) ==> RowRefused(before, Outcome(h.w, Returned), m)))
  {
    hide Handle, CreateServer, Creates, GotPast, RowRefused, HasRow, Sound;
    var h := Handle(w, CreateInstance(m), tries, 1, delay);
    n := |h.ends| - 1;
    LastCreate(w, m, tries, delay);
    CreatesSteady(w, m, n);
    if Acks(h) { ReturnedExactly(Creates(w, m, n).w, m); }
  }

  // -- confirmation ------------------------------------------------------------------------------------------

  /** Tries of an ack or nack from number `attempt` on: how many were made, and whether one got through. */
  datatype Confirmation = Confirmation(made: nat, done: bool)

  /** Try number `k` reaches the broker. */
  predicate GetsThrough(fails: seq<bool>, k: nat)
    requires k >= 1
  {
    k > |fails| || !fails[k - 1]
  }

  function Confirm(fails: seq<bool>, tries: nat, attempt: nat): (c: Confirmation)
    requires attempt >= 1
    decreases tries + 1 - attempt
  {
    if attempt > tries then Confirmation(0, false)
    else if GetsThrough(fails, attempt) then Confirmation(1, true)
    else
      var rest := Confirm(fails, tries, attempt + 1);
      Confirmation(1 + rest.made, rest.done)
  }

  /** Confirmed exactly when one of the allowed tries gets through, and then nothing more is sent. */
  lemma {:induction false} ConfirmedExactly(fails: seq<bool>, tries: nat, attempt: nat)
    requires attempt >= 1
    ensures
      var c := Confirm(fails, tries, attempt);
      && (c.done <==> exists k :: attempt <= k <= tries && GetsThrough(fails, k))
      && (attempt <= tries + 1 ==> c.made <= tries + 1 - attempt && (!c.done ==> c.made == tries + 1 - attempt))
      && (forall k :: attempt <= k < attempt + c.made - (if c.done then 1 else 0) ==> !GetsThrough(fails, k))
    decreases tries + 1 - attempt
  {
    if attempt <= tries && !GetsThrough(fails, attempt) {
      ConfirmedExactly(fails, tries, attempt + 1);
      var c := Confirm(fails, tries, attempt);
      forall k | attempt <= k <= tries && GetsThrough(fails, k) ensures c.done { assert attempt + 1 <= k; }
    }
  }

  // -- the source's loops ------------------------------------------------------------------------------------

  /** What is to come is what happened so far and then the rest. */
  ghost predicate Continues(all: Handling, w: World, m: Message, tries: nat, attempt: nat, delay: int, ends: seq<Status>, sleeps: seq<int>) {
    && 1 <= attempt <= tries
    && var rest := Handle(w, m, tries, attempt, delay); all == Handling(rest.w, ends + rest.ends, sleeps + rest.sleeps)
  }

  lemma Starts(w: World, m: Message, tries: nat, delay: int)
    requires tries >= 1
    ensures Continues(Handle(w, m, tries, 1, delay), w, m, tries, 1, delay, [], [])
  {
    hide Handle;
    var h := Handle(w, m, tries, 1, delay);
    assert [] + h.ends == h.ends && [] + h.sleeps == h.sleeps;
  }

  lemma NextAttempt(all: Handling, w: World, m: Message, tries: nat, attempt: nat, delay: int, ends: seq<Status>, sleeps: seq<int>)
    requires Continues(all, w, m, tries, attempt, delay, ends, sleeps)
    ensures
      var o := Process(w, m);
      if o.status.Returned? || NoRetry(o.status.exn) || attempt == tries then all == Handling(o.w, ends + [o.status], sleeps)
      else Continues(all, o.w, m, tries, attempt + 1, delay + DELAY_STEP, ends + [o.status], sleeps + [delay])
  {
    hide Process, NoRetry;
    var o := Process(w, m);
    if !(o.status.Returned? || NoRetry(o.status.exn) || attempt == tries) {
      var rest := Handle(o.w, m, tries, attempt + 1, delay + DELAY_STEP);
      assert ends + ([o.status] + rest.ends) == ends + [o.status] + rest.ends;
      assert sleeps + ([delay] + rest.sleeps) == sleeps + [delay] + rest.sleeps;
    }
  }

  class MessageHandlerService {
    const handler: Handler.InstanceHandler
    var activeTasks: set<nat>
    const maxRetries: nat
    const retryDelay: int
    const ackRetries: nat
    var messagesTotal: nat
    var exceptionsTotal: nat
    var slept: seq<int>
    ghost var drain: Drain.State   // the tasks of the whole service

    function Config(): Drain.Config { Drain.Config(maxRetries, retryDelay, ackRetries) }

    /** The tracked tasks are those of the service that were delivered and whose done callback has not run. */
    ghost predicate Valid()
      reads this`drain, this`activeTasks
    {
      Drain.Inv(Config(), drain) && activeTasks == drain.active
    }

    constructor (handler: Handler.InstanceHandler, maxRetries: nat, retryDelay: int, ackRetries: nat)
      requires maxRetries >= 1 && ackRetries >= 1
      ensures Valid() && drain == Drain.Start()
      ensures this.handler == handler && activeTasks == {} && messagesTotal == 0 && exceptionsTotal == 0 && slept == []
      ensures this.maxRetries == maxRetries && this.retryDelay == retryDelay && this.ackRetries == ackRetries
    {
      this.handler, activeTasks, messagesTotal, exceptionsTotal, slept := handler, {}, 0, 0, [];
      this.maxRetries, this.retryDelay, this.ackRetries := maxRetries, retryDelay, ackRetries;
      drain := Drain.Start();
      new;
      Drain.AlwaysInv(Config(), []);
    }

    /** Ack or nack, tried up to `ackRetries` times; then the broker is left to requeue. */
    method ConfirmMessage(fails: seq<bool>) returns (done: bool)
      modifies this`slept
      ensures done == Confirm(fails, ackRetries, 1).done
      ensures |slept| == |old(slept)| + (if ackRetries == 0 then 0 else Confirm(fails, ackRetries, 1).made - 1)
      ensures old(slept) <= slept && forall i :: |old(slept)| <= i < |slept| ==> slept[i] == retryDelay
    {
      var attempt := 1;
      while attempt <= ackRetries
        invariant 1 <= attempt <= ackRetries + 1
        invariant Confirm(fails, ackRetries, 1).done == Confirm(fails, ackRetries, attempt).done
        invariant Confirm(fails, ackRetries, 1).made == attempt - 1 + Confirm(fails, ackRetries, attempt).made
        invariant |slept| == |old(slept)| + (if attempt <= ackRetries || attempt == 1 then attempt - 1 else attempt - 2)
        invariant old(slept) <= slept && forall i :: |old(slept)| <= i < |slept| ==> slept[i] == retryDelay
      {
        if GetsThrough(fails, attempt) {
          return true;
        }
        if attempt < ackRetries {
          slept := slept + [retryDelay];
        }
        attempt := attempt + 1;
      }
      return false;
    }

    /** Process one message with retries, then ack it, or nack it to the dead-letter queue. */
    method HandleMessage(m: Message, fails: seq<bool>) returns (acked: bool, confirmed: bool)
      requires maxRetries >= 1
      modifies this, handler
      ensures activeTasks == old(activeTasks) && drain == old(drain)
      ensures
        var h := Handle(old(handler.w), m, maxRetries, 1, retryDelay);
        && handler.w == h.w && acked == Acks(h)
        && old(slept) + h.sleeps <= slept
      ensures confirmed == Confirm(fails, ackRetries, 1).done
      ensures messagesTotal == old(messagesTotal) + 1
      ensures exceptionsTotal == old(exceptionsTotal) + if acked then 0 else 1
    {
      hide Process, Confirm, NoRetry, Continues;
      messagesTotal := messagesTotal + 1;
      var delay := retryDelay;
      var attempt := 1;
      acked := false;
      ghost var ends: seq<Status>, sleeps: seq<int> := [], [];
      ghost var all := Handle(handler.w, m, maxRetries, 1, retryDelay);
      var trying := true;
      assert Continues(all, handler.w, m, maxRetries, attempt, delay, ends, sleeps) by { Starts(handler.w, m, maxRetries, retryDelay); }
      while trying
        invariant 1 <= attempt <= maxRetries && slept == old(slept) + sleeps
        invariant trying ==> !acked && Continues(all, handler.w, m, maxRetries, attempt, delay, ends, sleeps)
        invariant !trying ==> all == Handling(handler.w, ends, sleeps) && ends != [] && acked == ends[|ends| - 1].Returned?
        invariant activeTasks == old(activeTasks) && drain == old(drain)
        invariant messagesTotal == old(messagesTotal) + 1 && exceptionsTotal == old(exceptionsTotal)
        decreases trying, maxRetries - attempt
      {
        NextAttempt(all, handler.w, m, maxRetries, attempt, delay, ends, sleeps);
        var r := handler.ProcessMessage(m);
        if r.Ok? {
          acked, trying := true, false;
        } else if NoRetry(r.exn) || attempt == maxRetries {
          trying := false;
        } else {
          slept := slept + [delay];
          sleeps := sleeps + [delay];
          delay := delay + DELAY_STEP;
          attempt := attempt + 1;
        }
        ends := ends + [if r.Ok? then Returned else Raised(r.exn)];
      }
      if !acked {
        exceptionsTotal := exceptionsTotal + 1;
      }
      confirmed := ConfirmMessage(fails);
    }

    /** The consumer callback: a delivered message becomes a tracked task. */
    method Track(task: nat)
      requires Valid() && Drain.Reasonable(Config()) && Drain.Enabled(Config(), drain, Drain.Deliver(task))
      modifies this`activeTasks, this`drain
      ensures Valid() && drain == Drain.Take(Config(), old(drain), Drain.Deliver(task))
      ensures activeTasks == Drain.Where(drain, Drain.Running()) && task in activeTasks
    {
      hide Drain.Inv;
      Drain.StepKeeps(Config(), drain, Drain.Deliver(task));
      drain := Drain.Take(Config(), drain, Drain.Deliver(task));
      Drain.ActiveExactly(Config(), drain);
      activeTasks := activeTasks + {task};
    }

    /** The done callback of a finished task: it was tracked and is tracked no more; all others stay. */
    method DoneCallback(task: nat)
      requires Valid() && Drain.Reasonable(Config()) && Drain.Enabled(Config(), drain, Drain.DoneCallback(task))
      modifies this`activeTasks, this`drain
      ensures Valid() && drain == Drain.Take(Config(), old(drain), Drain.DoneCallback(task))
      ensures task in old(activeTasks) && activeTasks == Drain.Where(drain, Drain.Running())
    {
      hide Drain.Inv;
      Drain.ActiveExactly(Config(), drain);
      Drain.StepKeeps(Config(), drain, Drain.DoneCallback(task));
      drain := Drain.Take(Config(), drain, Drain.DoneCallback(task));
      Drain.ActiveExactly(Config(), drain);
      activeTasks := activeTasks - {task};
    }
  }
}
