/** The fields of a recreated server: what is written, what is recorded, and which row is touched. */
module FieldProofs {
  import opened Basics
  import opened Cmdb
  import opened Retry
  import opened RetryProofs
  import opened StoreFacts
  import opened Attachments
  import opened Tags
  import opened TagsProofs
  import opened Create

  // -- the one row a message updates -----------------------------------------------------------

  /** The server this message created, after rows that do not carry its hostname. */
  ghost predicate RowOf(db: Db, kept: seq<Server>, id: Id, cols: Cols, ctx: Context) {
    && db.servers == kept + [Server(id, cols)]
    && (forall s :: s in kept ==> !Is(s, "hostname", ctx.hostname))
    && Is(Server(id, cols), "hostname", ctx.hostname) && Is(Server(id, cols), "uuid", ctx.uuid)
  }

  /** The mutation leaves the row its own hostname and uuid: it does not name them, or writes them back. */
  ghost predicate KeepsNames(m: Cols, ctx: Context) {
    && ("hostname" in m ==> m["hostname"] == Text(ctx.hostname))
    && ("uuid" in m ==> m["uuid"] == Text(ctx.uuid))
  }

  /** Every write the CMDB takes leaves the row its names. */
  ghost predicate SafeWrites(writes: seq<FieldWrite>, ctx: Context, refused: set<(string, Value)>) {
    forall x :: x in writes && TagsProofs.Taken(x, refused) ==> KeepsNames(x.mutation, ctx)
  }

  /** Everything but the servers. */
  ghost predicate SameCards(a: Db, b: Db) {
    a.endpoints == b.endpoints && a.ips == b.ips && a.rails == b.rails && a.catalog == b.catalog
  }

  lemma {:induction false} MapKept(kept: seq<Server>, ctx: Context, m: Cols)
    requires forall s :: s in kept ==> !Is(s, "hostname", ctx.hostname)
    ensures Map(kept, Mutated(Some(ctx.hostname), Some(ctx.uuid), m)) == kept
  {
    var f := Mutated(Some(ctx.hostname), Some(ctx.uuid), m);
    forall i | 0 <= i < |kept| ensures Map(kept, f)[i] == kept[i] {
      assert kept[i] in kept;
    }
  }

  /** Only this message's row is matched by its hostname and uuid. */
  lemma UpdateTouchesRow(db: Db, kept: seq<Server>, id: Id, cols: Cols, ctx: Context, m: Cols)
    requires RowOf(db, kept, id, cols, ctx) && KeepsNames(m, ctx) && Accepted(db, m)
    ensures
      var db' := Commit(db, UpdateServers(Some(ctx.hostname), Some(ctx.uuid), m), Id(0, 0));
      RowOf(db', kept, id, cols + m, ctx) && SameCards(db, db')
  {
    var f := Mutated(Some(ctx.hostname), Some(ctx.uuid), m);
    var row := Server(id, cols);
    MapConcat(kept, [row], f);
    MapKept(kept, ctx, m);
    assert Map([row], f) == [Server(id, cols + m)];
  }

  /** What one field update can do. */
  ghost predicate Updated(w: World, t: Turn, kept: seq<Server>, id: Id, cols: Cols, ctx: Context, m: Cols, o: Opts) {
    && Quiet(t.w) && t.w.minted == w.minted && SameCards(w.db, t.w.db) && Reported(w, t, o)
    && (RowOf(t.w.db, kept, id, cols, ctx) || RowOf(t.w.db, kept, id, cols + m, ctx))
    && (t.answer.Got? && t.answer.reply != Nothing ==> RowOf(t.w.db, kept, id, cols + m, ctx))
    && (t.answer.Threw? ==> t.answer.exn == Transport || (o.raises && t.answer.exn == CmdbAbort))
    && (t.answer == Got(Nothing) && o.report.Some? ==> t.w.errors != w.errors)
  }

  lemma UpdateRowCall(w: World, kept: seq<Server>, id: Id, cols: Cols, ctx: Context, m: Cols, o: Opts)
    requires Quiet(w) && RowOf(w.db, kept, id, cols, ctx) && (Accepted(w.db, m) ==> KeepsNames(m, ctx))
    ensures Updated(w, UpdateRow(w, ctx, m, o), kept, id, cols, ctx, m, o)
  {
    var op := UpdateServers(Some(ctx.hostname), Some(ctx.uuid), m);
    WriteCall(w, op, o);
    if Accepted(w.db, m) {
      UpdateTouchesRow(w.db, kept, id, cols, ctx, m);
    }
    assert Commit(w.db, op, FreshId(w)) == Commit(w.db, op, Id(0, 0));
    hide Call, Reads, Commit, RowOf, Reported;
  }

  // -- replay -----------------------------------------------------------------------------------------

  /** The columns only an unmarked step writes: failing there leaves the server ready. */
  const SOFT := {"tenant", "flavor"}

  /** An unmarked write only touches `SOFT`. */
  ghost predicate SoftOnly(writes: seq<FieldWrite>) {
    forall w :: w in writes && !w.mark ==> w.mutation.Keys <= SOFT
  }

  ghost predicate Agrees(cols: Cols, m: Cols) {
    forall k :: k in m && k !in SOFT ==> k in cols && cols[k] == m[k]
  }

  /** Some state-error failure was recorded after `before`. */
  ghost predicate NewMark(before: seq<Entry>, after: seq<Entry>) {
    before <= after && exists i :: |before| <= i < |after| && after[i].mark
  }

  /** One write that answered, and then the rest. */
  lemma ReplayOn(
    w: World, t: Turn, errors: seq<Entry>, cols: Cols, now: Cols, cols': Cols, done: seq<FieldWrite>, x: FieldWrite, rest: seq<FieldWrite>)
    requires t.answer.Got? && Reported(w, t, WriteOpts(x)) && (!x.mark ==> x.mutation.Keys <= SOFT)
    requires now == cols + x.mutation || now == cols
    requires t.answer.reply != Nothing ==> now == cols + x.mutation
    requires t.answer == Got(Nothing) ==> t.w.errors != w.errors
    requires w.errors <= t.w.errors <= errors
    requires Agrees(now, Merge(done + [x])) && !NewMark(t.w.errors, errors) ==> Agrees(cols', Merge(done + [x] + rest))
    ensures Agrees(cols, Merge(done)) && !NewMark(w.errors, errors) ==> Agrees(cols', Merge(done + ([x] + rest)))
  {
    hide Agrees, Merge, Reported;
    if Agrees(cols, Merge(done)) && !NewMark(w.errors, errors) {
      NoMarkBetween(w.errors, t.w.errors, errors);
      MergeOne(done, x);
      StillAgrees(w, t, cols, now, Merge(done), x);
      assert done + [x] + rest == done + ([x] + rest);
    }
  }

  lemma {:induction false} ReplayStage(
    w: World, kept: seq<Server>, id: Id, cols: Cols, ctx: Context, done: seq<FieldWrite>, rest: seq<FieldWrite>) returns (cols': Cols)
    requires Quiet(w) && RowOf(w.db, kept, id, cols, ctx)
    requires SafeWrites(rest, ctx, w.db.catalog.refused)
    requires SoftOnly(rest)
    ensures
      var s := ReplayWrites(w, ctx, rest);
      && Quiet(s.w) && s.w.minted == w.minted && SameCards(w.db, s.w.db) && w.errors <= s.w.errors
      && RowOf(s.w.db, kept, id, cols', ctx)
      && (s.Fine? && Agrees(cols, Merge(done)) && !NewMark(w.errors, s.w.errors) ==> Agrees(cols', Merge(done + rest)))
    decreases |rest|
  {
    hide UpdateRow, Call, Attempts, RowOf, Agrees, Merge, NewMark;
    cols' := cols;
    if rest == [] {
      assert done + rest == done;
    } else {
      var x := rest[0];
      UpdateRowCall(w, kept, id, cols, ctx, x.mutation, WriteOpts(x));
      var t := UpdateRow(w, ctx, x.mutation, WriteOpts(x));
      hide UpdateRow, RowOf, SameCards;
      var now := if RowOf(t.w.db, kept, id, cols + x.mutation, ctx) then cols + x.mutation else cols;
      cols' := now;
      if t.answer.Got? {
        cols' := ReplayStage(t.w, kept, id, now, ctx, done + [x], rest[1..]);
        var s := ReplayWrites(t.w, ctx, rest[1..]);
        if s.Fine? {
          assert [x] + rest[1..] == rest;
          ReplayOn(w, t, s.w.errors, cols, now, cols', done, x, rest[1..]);
        }
      }
    }
  }

  lemma NoMarkBetween(a: seq<Entry>, b: seq<Entry>, c: seq<Entry>)
    requires a <= b <= c && !NewMark(a, c)
    ensures !NewMark(a, b) && !NewMark(b, c)
  {
    assert forall i :: 0 <= i < |b| ==> b[i] == c[i];
  }

  /** After one write that recorded no state error, the row agrees with one more write. */
  lemma StillAgrees(w: World, t: Turn, cols: Cols, now: Cols, m: Cols, x: FieldWrite)
    requires t.answer.Got? && Reported(w, t, WriteOpts(x)) && (!x.mark ==> x.mutation.Keys <= SOFT)
    requires now == cols + x.mutation || now == cols
    requires t.answer.reply != Nothing ==> now == cols + x.mutation
    requires t.answer == Got(Nothing) ==> t.w.errors != w.errors
    requires Agrees(cols, m) && !NewMark(w.errors, t.w.errors)
    ensures Agrees(now, m + x.mutation)
  {
    if t.answer == Got(Nothing) {
      assert t.w.errors[|w.errors|] == Entry(x.field, Message(x.field), x.mark, x.listed);
      assert !x.mark;
    }
  }

  lemma {:induction false} StepsSoft(ctx: Context, refs: set<string>, names: seq<string>)
    ensures SoftOnly(StepWrites(ctx, refs, names))
  {
    if names != [] {
      var last := names[|names| - 1];
      StepsSoft(ctx, refs, names[..|names| - 1]);
      forall x | x in StepWrite(ctx, refs, last) && !x.mark ensures x.mutation.Keys <= SOFT {
        assert last == "tenant" || last == "flavor";
      }
    }
  }

  lemma CreateWritesSoft(ctx: Context, refs: set<string>)
    ensures SoftOnly(CreateWrites(ctx, refs))
  {
    StepsSoft(ctx, refs, STEP_NAMES);
    var left := Map(Leftovers(ctx), TagWrite(refs));
    assert forall x :: x in left ==> x.mark;
  }

  /**
   The fields under arbitrary faults: only this message's row changes, and if no
   state error was recorded every column but tenant and flavor has its last write.
   */
  lemma FieldsStage(w: World, kept: seq<Server>, id: Id, cols: Cols, ctx: Context) returns (cols': Cols)
    requires Quiet(w) && RowOf(w.db, kept, id, cols, ctx)
    requires SafeWrites(CreateWrites(ctx, w.db.catalog.refs), ctx, w.db.catalog.refused)
    ensures
      var s := WriteFields(w, ctx);
      && Quiet(s.w) && s.w.minted == w.minted && SameCards(w.db, s.w.db) && w.errors <= s.w.errors
      && RowOf(s.w.db, kept, id, cols', ctx)
      && (s.Fine? && !NewMark(w.errors, s.w.errors) ==> Agrees(cols', Merge(CreateWrites(ctx, w.db.catalog.refs))))
      && (s.Broken? ==> s.exn == Transport)
  {
    var writes := CreateWrites(ctx, w.db.catalog.refs);
    var batch := Merge(writes);
    hide CreateWrites, UpdateRow, SoftOnly, RowOf, Merge, Agrees, NewMark;
    BatchNeverEmpty(ctx, w.db.catalog.refs);
    SafeBatch(ctx, w.db);
    CreateWritesSoft(ctx, w.db.catalog.refs);
    UpdateRowCall(w, kept, id, cols, ctx, batch, Opts("batch", false, None));
    var t := UpdateRow(w, ctx, batch, Opts("batch", false, None));
    var now := if RowOf(t.w.db, kept, id, cols + batch, ctx) then cols + batch else cols;
    cols' := now;
    BatchAgrees(cols, batch);
    if t.answer == Got(Nothing) {
      assert Merge([]) == map[] by { EmptyMerge(); }
      cols' := ReplayStage(t.w, kept, id, now, ctx, [], writes);
      ReplayRaises(t.w, kept, id, now, ctx, writes);
      assert [] + writes == writes;
    }
  }

  /** A taken batch agrees with itself, and an empty one with everything. */
  lemma BatchAgrees(cols: Cols, batch: Cols)
    ensures Agrees(cols + batch, batch) && Agrees(cols, map[]) && Agrees(cols + batch, map[])
  {
  }

  lemma EmptyMerge()
    ensures Merge([]) == map[]
  {
  }

  /** A replay is cut short only by the transport. */
  lemma {:induction false} ReplayRaises(w: World, kept: seq<Server>, id: Id, cols: Cols, ctx: Context, writes: seq<FieldWrite>)
    requires Quiet(w) && RowOf(w.db, kept, id, cols, ctx) && SafeWrites(writes, ctx, w.db.catalog.refused)
    ensures ReplayWrites(w, ctx, writes).Broken? ==> ReplayWrites(w, ctx, writes).exn == Transport
    decreases |writes|
  {
    if writes != [] {
      var x := writes[0];
      UpdateRowCall(w, kept, id, cols, ctx, x.mutation, WriteOpts(x));
      var t := UpdateRow(w, ctx, x.mutation, WriteOpts(x));
      var now := if RowOf(t.w.db, kept, id, cols + x.mutation, ctx) then cols + x.mutation else cols;
      if t.answer.Got? { ReplayRaises(t.w, kept, id, now, ctx, writes[1..]); }
    }
  }

  // -- the exact outcome, when the CMDB refuses nothing but invalid values ---------------------------------

  /** No request from `from` on was rejected out of hand; a refused value is not a rejection. */
  ghost predicate Unrejected(log: seq<Event>, from: nat) {
    forall i :: from <= i < |log| && log[i].Sent? ==> !log[i].fault.Rejected?
  }

  lemma UnrejectedPart(log: seq<Event>, from: nat, mid: seq<Event>)
    requires mid <= log && from <= |mid| && Unrejected(log, from)
    ensures Unrejected(mid, from) && Unrejected(log, |mid|)
  {
    assert forall i :: 0 <= i < |mid| ==> mid[i] == log[i];
  }

  /** An update by its value alone: applied if the CMDB takes it, else recorded and not applied. */
  ghost predicate ByValue(w: World, t: Turn, op: Op, o: Opts) {
    && Quiet(t.w) && t.w.minted == w.minted
    && if Accepts(w.db, op) then
         && (t.w.db == w.db || t.w.db == Commit(w.db, op, FreshId(w))) && t.w.errors == w.errors
         && (t.answer.Got? ==> t.w.db == Commit(w.db, op, FreshId(w)) && t.answer.reply != Nothing)
         && (t.answer.Threw? ==> t.answer.exn == Transport)
       else
         && t.w.db == w.db
         && (|| (t.answer == Threw(Transport) && t.w.errors == w.errors)
             || t == Fail(t.w.(errors := w.errors), o))
  }

  lemma {:induction false} UpdateByValue(w: World, op: Op, o: Opts, attempt: nat)
    requires Quiet(w) && op.UpdateServers? && 1 <= attempt <= Tries(w)
    requires Unrejected(Attempts(w, op, NoSelector, o, attempt).w.log, |w.log|)
    ensures ByValue(w, Attempts(w, op, NoSelector, o, attempt), op, o)
    decreases Tries(w) - attempt
  {
    var sent := Exchange(w, op);
    var t := Attempts(w, op, NoSelector, o, attempt);
    assert t == Issue(w, op, NoSelector, o, attempt);
    assert sent.w.log[|w.log|] == Sent(op, Fate(w), sent.answer) && t.w.log[|w.log|] == sent.w.log[|w.log|];
    if sent.answer.Threw? && !sent.answer.exn.Perm? && attempt < Tries(w) {
      CommitIdempotent(w.db, op, FreshId(w));
      hide Commit, Reads;
      var next := Nap(sent.w, attempt);
      UnrejectedPart(t.w.log, |w.log|, next.log);
      UpdateByValue(next, op, o, attempt + 1);
    }
  }

  function EntryOf(): FieldWrite -> Entry { (x: FieldWrite) => Entry(x.field, Message(x.field), x.mark, x.listed) }

  ghost function RefusedBy(refused: set<(string, Value)>): FieldWrite -> bool { x => !Taken(x, refused) }

  /** What replaying these writes records: exactly the refused ones, in order, with their flags. */
  ghost function RefusedEntries(writes: seq<FieldWrite>, refused: set<(string, Value)>): seq<Entry> {
    Map(Filter(writes, RefusedBy(refused)), EntryOf())
  }

  lemma RefusedFirst(x: FieldWrite, rest: seq<FieldWrite>, refused: set<(string, Value)>)
    ensures RefusedEntries([x] + rest, refused)
         == (if Taken(x, refused) then [] else [EntryOf()(x)]) + RefusedEntries(rest, refused)
  {
    assert ([x] + rest)[1..] == rest;
    var kept := Filter(rest, RefusedBy(refused));
    if !Taken(x, refused) {
      assert Filter([x] + rest, RefusedBy(refused)) == [x] + kept;
      assert ([x] + kept)[1..] == kept;
    }
  }

  lemma {:induction false} ReplayFirst(cols: Cols, x: FieldWrite, rest: seq<FieldWrite>, refused: set<(string, Value)>)
    ensures Replay(cols, [x] + rest, refused) == Replay(if Taken(x, refused) then cols + x.mutation else cols, rest, refused)
  {
    var after := if Taken(x, refused) then cols + x.mutation else cols;
    if rest == [] {
      assert [x] + rest == [x] && [x][..0] == [];
    } else {
      var front, last := rest[..|rest| - 1], rest[|rest| - 1];
      ReplayFirst(cols, x, front, refused);
      assert [x] + rest == ([x] + front) + [last] && rest == front + [last];
      ReplayOne(cols, [x] + front, last, refused);
      ReplayOne(after, front, last, refused);
    }
  }

  lemma ExactUpdate(w: World, kept: seq<Server>, id: Id, cols: Cols, ctx: Context, x: FieldWrite)
    requires Quiet(w) && RowOf(w.db, kept, id, cols, ctx) && SafeWrites([x], ctx, w.db.catalog.refused)
    requires Unrejected(UpdateRow(w, ctx, x.mutation, WriteOpts(x)).w.log, |w.log|)
    ensures
      var t := UpdateRow(w, ctx, x.mutation, WriteOpts(x));
      var refused := w.db.catalog.refused;
      && Quiet(t.w) && SameCards(w.db, t.w.db)
      && (t.answer.Got? ==>
            && RowOf(t.w.db, kept, id, if Taken(x, refused) then cols + x.mutation else cols, ctx)
            && t.w.errors == w.errors + if Taken(x, refused) then [] else [EntryOf()(x)])
  {
    var op := UpdateServers(Some(ctx.hostname), Some(ctx.uuid), x.mutation);
    UpdateByValue(w, op, WriteOpts(x), 1);
    UpdateRowCall(w, kept, id, cols, ctx, x.mutation, WriteOpts(x));
    assert Taken(x, w.db.catalog.refused) <==> Accepts(w.db, op);
    if Accepts(w.db, op) {
      UpdateTouchesRow(w.db, kept, id, cols, ctx, x.mutation);
      assert Commit(w.db, op, FreshId(w)) == Commit(w.db, op, Id(0, 0));
    }
    hide Attempts, Reads, Commit, RowOf;
  }

  lemma ReplayJoin(
    cols: Cols, x: FieldWrite, rest: seq<FieldWrite>, refused: set<(string, Value)>, a: seq<Entry>, b: seq<Entry>, c: seq<Entry>)
    requires b == a + (if Taken(x, refused) then [] else [EntryOf()(x)]) && c == b + RefusedEntries(rest, refused)
    ensures Replay(cols, [x] + rest, refused) == Replay(if Taken(x, refused) then cols + x.mutation else cols, rest, refused)
    ensures c == a + RefusedEntries([x] + rest, refused)
  {
    RefusedFirst(x, rest, refused);
    ReplayFirst(cols, x, rest, refused);
    hide *;
  }

  /** A replay that finishes leaves each column at its last valid write and records exactly the refused writes. */
  lemma {:induction false} ReplayExact(
    w: World, kept: seq<Server>, id: Id, cols: Cols, ctx: Context, writes: seq<FieldWrite>)
    requires Quiet(w) && RowOf(w.db, kept, id, cols, ctx)
    requires SafeWrites(writes, ctx, w.db.catalog.refused)
    requires Unrejected(ReplayWrites(w, ctx, writes).w.log, |w.log|)
    ensures
      var s := ReplayWrites(w, ctx, writes);
      var refused := w.db.catalog.refused;
      s.Fine? ==>
        && RowOf(s.w.db, kept, id, Replay(cols, writes, refused), ctx)
        && s.w.errors == w.errors + RefusedEntries(writes, refused)
    decreases |writes|
  {
    var refused := w.db.catalog.refused;
    if writes == [] {
      assert RefusedEntries(writes, refused) == [];
    } else {
      var x, rest := writes[0], writes[1..];
      var t := UpdateRow(w, ctx, x.mutation, WriteOpts(x));
      UnrejectedPart(ReplayWrites(w, ctx, writes).w.log, |w.log|, t.w.log);
      ExactUpdate(w, kept, id, cols, ctx, x);
      if t.answer.Got? {
        var now := if Taken(x, refused) then cols + x.mutation else cols;
        hide UpdateRow, Taken, SameCards, Replay, RefusedEntries, RowOf, SafeWrites, KeepsNames, Unrejected, EntryOf;
        ReplayExact(t.w, kept, id, now, ctx, rest);
        assert writes == [x] + rest;
        var s := ReplayWrites(t.w, ctx, rest);
        assert ReplayWrites(w, ctx, writes) == s;
        if s.Fine? {
          hide *;
          ReplayJoin(cols, x, rest, refused, w.errors, t.w.errors, s.w.errors);
        }
      }
    }
  }

  /**
   Batch refines replay, on the store: when the CMDB refuses only invalid values,
   a finished write of the fields leaves the row a field-by-field replay would
   leave; if the batch was taken nothing is recorded, else exactly the refused writes.
   */
  lemma FieldsExact(w: World, kept: seq<Server>, id: Id, cols: Cols, ctx: Context)
    requires Quiet(w) && RowOf(w.db, kept, id, cols, ctx)
    requires SafeWrites(CreateWrites(ctx, w.db.catalog.refs), ctx, w.db.catalog.refused)
    requires Unrejected(WriteFields(w, ctx).w.log, |w.log|)
    ensures
      var s := WriteFields(w, ctx);
      var writes, refused := CreateWrites(ctx, w.db.catalog.refs), w.db.catalog.refused;
      s.Fine? ==>
        && RowOf(s.w.db, kept, id, Replay(cols, writes, refused), ctx)
        && s.w.errors == w.errors + if Accepted(w.db, Merge(writes)) then [] else RefusedEntries(writes, refused)
  {
    hide Attempts, CreateWrites, Merge;
    var writes, refused := CreateWrites(ctx, w.db.catalog.refs), w.db.catalog.refused;
    var batch := Merge(writes);
    var o := Opts("batch", false, None);
    var t := UpdateRow(w, ctx, batch, o);
    var op := UpdateServers(Some(ctx.hostname), Some(ctx.uuid), batch);
    BatchNeverEmpty(ctx, w.db.catalog.refs);
    UnrejectedPart(WriteFields(w, ctx).w.log, |w.log|, t.w.log);
    SafeBatch(ctx, w.db);
    UpdateByValue(w, op, o, 1);
    UpdateRowCall(w, kept, id, cols, ctx, batch, o);
    CreateWritesOneKey(ctx, w.db.catalog.refs);
    if Accepted(w.db, batch) {
      UpdateTouchesRow(w.db, kept, id, cols, ctx, batch);
      assert Commit(w.db, op, FreshId(w)) == Commit(w.db, op, Id(0, 0));
      SinglesFromOnes(writes, STEP_COLUMNS + LeftColumns(ctx));
      BatchIsReplay(cols, writes, refused);
    } else if t.answer.Got? {
      hide UpdateRow, Commit, CreateWrites, RefusedEntries, Replay;
      ReplayExact(t.w, kept, id, cols, ctx, writes);
    }
  }

  lemma SinglesFromOnes(writes: seq<FieldWrite>, columns: set<string>)
    requires forall x :: x in writes ==> WritesOne(x, columns)
    ensures SingleKeys(writes)
  {
  }

  /** A merged column has the value of some write. */
  lemma {:induction false} MergedFrom(writes: seq<FieldWrite>, key: string) returns (x: FieldWrite)
    requires key in Merge(writes)
    ensures x in writes && key in x.mutation && x.mutation[key] == Merge(writes)[key]
  {
    var last := writes[|writes| - 1];
    x := last;
    if key !in last.mutation { x := MergedFrom(writes[..|writes| - 1], key); }
  }

  /** A batch the CMDB takes leaves the row its names if every write it takes does. */
  lemma SafeBatch(ctx: Context, db: Db)
    requires SafeWrites(CreateWrites(ctx, db.catalog.refs), ctx, db.catalog.refused)
    ensures
      var batch := Merge(CreateWrites(ctx, db.catalog.refs));
      Accepted(db, batch) ==> KeepsNames(batch, ctx)
  {
    var writes := CreateWrites(ctx, db.catalog.refs);
    CreateWritesOneKey(ctx, db.catalog.refs);
    SinglesFromOnes(writes, STEP_COLUMNS + LeftColumns(ctx));
    hide CreateWrites, Merge;
    if Accepted(db, Merge(writes)) {
      if "hostname" in Merge(writes) { SafeColumn(writes, ctx, db, "hostname"); }
      if "uuid" in Merge(writes) { SafeColumn(writes, ctx, db, "uuid"); }
    }
  }

  lemma SafeColumn(writes: seq<FieldWrite>, ctx: Context, db: Db, key: string)
    requires SafeWrites(writes, ctx, db.catalog.refused) && SingleKeys(writes) && Accepted(db, Merge(writes)) && key in Merge(writes)
    ensures key == "hostname" ==> Merge(writes)[key] == Text(ctx.hostname)
    ensures key == "uuid" ==> Merge(writes)[key] == Text(ctx.uuid)
  {
    var x := MergedFrom(writes, key);
    hide Merge;
    var own :| OneKey(x.mutation, own);
    assert TagsProofs.Taken(x, db.catalog.refused);
  }
}
