/**
 The fields of a create under every fault: a write that is refused, for its value or out of
 hand, is recorded; one that is not recorded is on the row.
 */
module FateProofs {
  import opened Basics
  import opened Cmdb
  import opened Retry
  import opened RetryProofs
  import opened StoreFacts
  import opened Attachments
  import opened Tags
  import opened TagsProofs
  import opened Create
  import opened FieldProofs

  /** How one field write ended: on the row; recorded and not on it; on the row and recorded all the same. */
  datatype End = Written | Noted | Both

  /** The columns these writes leave. */
  function Columns(cols: Cols, writes: seq<FieldWrite>, ends: seq<End>): Cols
    requires |ends| == |writes|
    decreases |writes|
  {
    if writes == [] then cols
    else Columns(if ends[0].Noted? then cols else cols + writes[0].mutation, writes[1..], ends[1..])
  }

  /** What these writes record, in their order. */
  function Entries(writes: seq<FieldWrite>, ends: seq<End>): seq<Entry>
    requires |ends| == |writes|
    decreases |writes|
  {
    if writes == [] then []
    else (if ends[0].Written? then [] else [EntryOf()(writes[0])]) + Entries(writes[1..], ends[1..])
  }

  /** One end per write; a value the CMDB refuses is recorded and not written. */
  ghost predicate Ends(writes: seq<FieldWrite>, ends: seq<End>, refused: set<(string, Value)>) {
    |ends| == |writes| && forall i :: 0 <= i < |writes| && !Taken(writes[i], refused) ==> ends[i].Noted?
  }

  lemma EndsFirst(writes: seq<FieldWrite>, end: End, ends: seq<End>, refused: set<(string, Value)>)
    requires writes != [] && Ends(writes[1..], ends, refused) && (!Taken(writes[0], refused) ==> end.Noted?)
    ensures Ends(writes, [end] + ends, refused)
    ensures ([end] + ends)[0] == end && ([end] + ends)[1..] == ends
  {
    forall i | 0 <= i < |writes| && !Taken(writes[i], refused) ensures ([end] + ends)[i].Noted? {
      if i > 0 { assert writes[i] == writes[1..][i - 1]; }
    }
  }

  /** What one write did, whatever its fate. */
  lemma OneEnd(w: World, kept: seq<Server>, id: Id, cols: Cols, ctx: Context, x: FieldWrite) returns (end: End)
    requires Quiet(w) && RowOf(w.db, kept, id, cols, ctx) && SafeWrites([x], ctx, w.db.catalog.refused)
    ensures
      var t := UpdateRow(w, ctx, x.mutation, WriteOpts(x));
      && Quiet(t.w) && t.w.db.catalog == w.db.catalog
      && (!Taken(x, w.db.catalog.refused) ==> end.Noted?)
      && (Tries(w) == 1 && t.answer.Got? ==> !end.Both?)
      && (t.answer.Got? ==> (end.Written? <==> t.answer.reply != Nothing))
      && (t.answer.Got? ==>
            && RowOf(t.w.db, kept, id, if end.Noted? then cols else cols + x.mutation, ctx)
            && t.w.errors == w.errors + if end.Written? then [] else [EntryOf()(x)])
  {
    var op := UpdateServers(Some(ctx.hostname), Some(ctx.uuid), x.mutation);
    var t := UpdateRow(w, ctx, x.mutation, WriteOpts(x));
    UpdateRowCall(w, kept, id, cols, ctx, x.mutation, WriteOpts(x));
    PlainCall(w, op, WriteOpts(x), 1);
    assert Taken(x, w.db.catalog.refused) <==> Accepts(w.db, op);
    if !Taken(x, w.db.catalog.refused) {
      assert Commit(w.db, op, FreshId(w)) == w.db;
      end := Noted;
    } else if t.answer.Got? && t.answer.reply != Nothing {
      end := Written;
    } else {
      end := if RowOf(t.w.db, kept, id, cols, ctx) then Noted else Both;
      if Tries(w) == 1 { OneTry(w, op, WriteOpts(x)); }
    }
    hide Attempts, Reads, Commit, RowOf;
  }

  /** With one attempt a request that was given up as failed did not land. */
  lemma OneTry(w: World, op: Op, o: Opts)
    requires Quiet(w) && Tries(w) == 1 && op.Write()
    ensures
      var t := Call(w, op, NoSelector, o);
      t.answer == Got(Nothing) ==> t.w.db == w.db || !Accepts(w.db, op)
  {
    hide Reads, Commit;
    assert Attempts(w, op, NoSelector, o, 1) == Issue(w, op, NoSelector, o, 1);
  }

  /** No write is on the row and recorded. */
  ghost predicate NoneBoth(ends: seq<End>) { forall i :: 0 <= i < |ends| ==> !ends[i].Both? }

  lemma TriesStay(w: World, w': World)
    requires Extends(w, w')
    ensures Tries(w') == Tries(w)
  {
  }

  lemma SafeParts(writes: seq<FieldWrite>, ctx: Context, refused: set<(string, Value)>)
    requires writes != [] && SafeWrites(writes, ctx, refused)
    ensures SafeWrites([writes[0]], ctx, refused) && SafeWrites(writes[1..], ctx, refused)
  {
    assert writes[0] in writes && forall y :: y in writes[1..] ==> y in writes;
  }

  /**
   A replay that finishes, whatever the faults: the row has exactly the writes that are not
   merely noted, exactly those that are not merely written are recorded in their order, and a
   refused value is always recorded and never on the row. With one attempt no write is both.
   */
  lemma {:induction false} ReplayEnds(
    w: World, kept: seq<Server>, id: Id, cols: Cols, ctx: Context, writes: seq<FieldWrite>) returns (ends: seq<End>)
    requires Quiet(w) && RowOf(w.db, kept, id, cols, ctx) && SafeWrites(writes, ctx, w.db.catalog.refused)
    ensures Ends(writes, ends, w.db.catalog.refused)
    ensures
      var s := ReplayWrites(w, ctx, writes);
      s.Fine? ==>
        && RowOf(s.w.db, kept, id, Columns(cols, writes, ends), ctx)
        && s.w.errors == w.errors + Entries(writes, ends)
        && (Tries(w) == 1 ==> NoneBoth(ends))
    decreases |writes|
  {
    hide UpdateRow, RowOf, Taken, KeepsNames, EntryOf, Extends, SafeWrites;
    if writes == [] {
      ends := [];
    } else {
      var x, rest := writes[0], writes[1..];
      var refused := w.db.catalog.refused;
      var t := UpdateRow(w, ctx, x.mutation, WriteOpts(x));
      SafeParts(writes, ctx, refused);
      TriesStay(w, t.w);
      var end := OneEnd(w, kept, id, cols, ctx, x);
      if t.answer.Got? {
        var now := if end.Noted? then cols else cols + x.mutation;
        ends := ReplayEnds(t.w, kept, id, now, ctx, rest);
        EndsFirst(writes, end, ends, refused);
        ends := [end] + ends;
      } else {
        ends := seq(|writes|, i => Noted);
      }
    }
  }

  /**
   What writing all fields did: the batch answered for all of them, or they were replayed; with
   one attempt a batch that was replayed did not land.
   */
  ghost predicate FieldEnds(w: World, s: Stage<()>, kept: seq<Server>, id: Id, cols: Cols, ctx: Context, landed: bool, ends: seq<End>) {
    var writes := CreateWrites(ctx, w.db.catalog.refs);
    var now := if landed then cols + Merge(writes) else cols;
    && (landed ==> Accepted(w.db, Merge(writes)))
    && Ends(writes, ends, w.db.catalog.refused)
    && (s.Fine? ==>
          || (landed && RowOf(s.w.db, kept, id, now, ctx) && s.w.errors == w.errors)
          || (&& RowOf(s.w.db, kept, id, Columns(now, writes, ends), ctx) && s.w.errors == w.errors + Entries(writes, ends)
              && (Tries(w) == 1 ==> !landed && NoneBoth(ends))))
  }

  /**
   The fields of a create under every fault: either the batch answered and nothing is recorded,
   or the writes are accounted for one by one, over a batch that may have landed unanswered.
   */
  lemma FieldsEnd(w: World, kept: seq<Server>, id: Id, cols: Cols, ctx: Context) returns (landed: bool, ends: seq<End>)
    requires Quiet(w) && RowOf(w.db, kept, id, cols, ctx)
    requires SafeWrites(CreateWrites(ctx, w.db.catalog.refs), ctx, w.db.catalog.refused)
    ensures FieldEnds(w, WriteFields(w, ctx), kept, id, cols, ctx, landed, ends)
  {
    var writes, refused := CreateWrites(ctx, w.db.catalog.refs), w.db.catalog.refused;
    var batch := Merge(writes);
    var o := Opts("batch", false, None);
    hide CreateWrites, Merge, UpdateRow;
    BatchNeverEmpty(ctx, w.db.catalog.refs);
    SafeBatch(ctx, w.db);
    UpdateRowCall(w, kept, id, cols, ctx, batch, o);
    BatchLands(w, ctx, batch, o);
    var t := UpdateRow(w, ctx, batch, o);
    ends := seq(|writes|, i => Noted);
    landed := Accepted(w.db, batch) && (t.answer != Got(Nothing) || !RowOf(t.w.db, kept, id, cols, ctx));
    if !Accepted(w.db, batch) { assert RowOf(t.w.db, kept, id, cols, ctx); }
    if t.answer == Got(Nothing) {
      ends := ReplayEnds(t.w, kept, id, if landed then cols + batch else cols, ctx, writes);
    }
  }

  lemma BatchLands(w: World, ctx: Context, batch: Cols, o: Opts)
    requires Quiet(w)
    ensures
      var t := UpdateRow(w, ctx, batch, o);
      && (!Accepted(w.db, batch) ==> t.w.db == w.db && !(t.answer.Got? && t.answer.reply != Nothing))
      && (t.answer.Got? && o.report.None? ==> t.w.errors == w.errors)
      && (Tries(w) == 1 && t.answer == Got(Nothing) ==> t.w.db == w.db)
  {
    var op := UpdateServers(Some(ctx.hostname), Some(ctx.uuid), batch);
    WriteCall(w, op, o);
    if Tries(w) == 1 { OneTry(w, op, o); }
    hide Call, Reads;
  }

  /** A write whose reply is lost and whose repeat is refused out of hand is on the row and recorded. */
  lemma BothHappens(w: World, kept: seq<Server>, id: Id, cols: Cols, ctx: Context, x: FieldWrite, why: Permanent)
    requires Quiet(w) && RowOf(w.db, kept, id, cols, ctx) && SafeWrites([x], ctx, w.db.catalog.refused)
    requires Taken(x, w.db.catalog.refused) && w.budget >= 2 && w.tape == [ReplyLost, Rejected(why)]
    ensures
      var t := UpdateRow(w, ctx, x.mutation, WriteOpts(x));
      && t.answer == Got(Nothing) && RowOf(t.w.db, kept, id, cols + x.mutation, ctx)
      && t.w.errors == w.errors + [EntryOf()(x)]
  {
    var op, o := UpdateServers(Some(ctx.hostname), Some(ctx.uuid), x.mutation), WriteOpts(x);
    assert x in [x] && KeepsNames(x.mutation, ctx);
    UpdateTouchesRow(w.db, kept, id, cols, ctx, x.mutation);
    assert Commit(w.db, op, FreshId(w)) == Commit(w.db, op, Id(0, 0));
    hide Commit, Reads, RowOf;
    var w1 := Nap(Exchange(w, op).w, 1);
    assert Attempts(w, op, NoSelector, o, 1) == Issue(w, op, NoSelector, o, 1);
    assert Issue(w, op, NoSelector, o, 1) == Attempts(w1, op, NoSelector, o, 2);
    assert Attempts(w1, op, NoSelector, o, 2) == Issue(w1, op, NoSelector, o, 2);
  }

  /** This write, if it is given up as failed, left the servers as they were. */
  ghost predicate FailedIsOff(w: World, ctx: Context, x: FieldWrite) {
    var t := UpdateRow(w, ctx, x.mutation, WriteOpts(x));
    t.answer == Got(Nothing) ==> t.w.db.servers == w.db.servers
  }

  lemma OffAlways(w: World, kept: seq<Server>, id: Id, cols: Cols, ctx: Context, x: FieldWrite)
    requires Quiet(w) && RowOf(w.db, kept, id, cols, ctx) && SafeWrites([x], ctx, w.db.catalog.refused)
    requires Tries(w) == 1 || !Taken(x, w.db.catalog.refused) || cols + x.mutation == cols
    ensures FailedIsOff(w, ctx, x)
  {
    hide UpdateRow;
    var end := OneEnd(w, kept, id, cols, ctx, x);
  }

  /**
   Exactly when a write that is recorded as failed is off the row, whatever the faults: with one
   attempt, or where the CMDB refuses its value, or where it would change nothing.
   */
  lemma RecordedExactly(w: World, kept: seq<Server>, id: Id, cols: Cols, ctx: Context, x: FieldWrite)
    requires Quiet(w) && RowOf(w.db, kept, id, cols, ctx) && SafeWrites([x], ctx, w.db.catalog.refused)
    ensures
      (forall tape: seq<Fault> :: FailedIsOff(w.(tape := tape), ctx, x))
      <==> Tries(w) == 1 || !Taken(x, w.db.catalog.refused) || cols + x.mutation == cols
  {
    hide UpdateRow, Taken, KeepsNames, FailedIsOff;
    if Tries(w) == 1 || !Taken(x, w.db.catalog.refused) || cols + x.mutation == cols {
      forall tape: seq<Fault> ensures FailedIsOff(w.(tape := tape), ctx, x) { OffAlways(w.(tape := tape), kept, id, cols, ctx, x); }
    } else {
      var v := w.(tape := [ReplyLost, Rejected(DataError)]);
      BothHappens(v, kept, id, cols, ctx, x, DataError);
      BothIsOn(v, kept, id, cols, ctx, x);
    }
  }

  lemma BothIsOn(w: World, kept: seq<Server>, id: Id, cols: Cols, ctx: Context, x: FieldWrite)
    requires RowOf(w.db, kept, id, cols, ctx) && cols + x.mutation != cols
    requires
      var t := UpdateRow(w, ctx, x.mutation, WriteOpts(x));
      t.answer == Got(Nothing) && RowOf(t.w.db, kept, id, cols + x.mutation, ctx)
    ensures !FailedIsOff(w, ctx, x)
  {
    hide UpdateRow;
    var t := UpdateRow(w, ctx, x.mutation, WriteOpts(x));
    assert w.db.servers[|kept|] == Server(id, cols) && t.w.db.servers[|kept|] == Server(id, cols + x.mutation);
  }
}
