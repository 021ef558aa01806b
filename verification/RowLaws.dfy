/** What a resize and a delete leave, row by row, and which messages ask for nothing. */
module RowLaws {
  import opened Basics
  import opened Cmdb
  import opened Retry
  import opened RetryProofs
  import opened StoreFacts
  import opened Attachments
  import opened Create
  import opened RecreateProofs
  import opened Runs

  // -- resize ------------------------------------------------------------------------------------

  /** Every row of this uuid has these columns too, and no other row changed. */
  ghost predicate HasNow(before: Db, after: Db, uuid: string, asked: Cols) {
    && after == before.(servers := after.servers) && |after.servers| == |before.servers|
    && forall i :: 0 <= i < |before.servers| ==>
      var s := before.servers[i];
      after.servers[i] == if "uuid" in s.cols && s.cols["uuid"] == Text(uuid) then Server(s.id, s.cols + asked) else s
  }

  function Payment(m: ResizeMsg): Cols {
    if m.price.Some? then map["server_monthly_payment" := m.price.value] else map[]
  }

  function Flavor(m: ResizeMsg): Cols {
    if m.flavor.Some? then map["flavor" := Lookup(map["name" := m.flavor.value, "region_code" := m.region])] else map[]
  }

  lemma NothingSet(db: Db, uuid: string)
    ensures HasNow(db, db, uuid, map[])
  {
    forall i | 0 <= i < |db.servers| ensures Server(db.servers[i].id, db.servers[i].cols + map[]) == db.servers[i] { }
  }

  /** One column, set or not, and set when the call returns. */
  lemma ColumnSet(w: World, uuid: string, asked: Cols, field: string)
    requires Quiet(w)
    ensures
      var o := SetColumn(w, uuid, asked, field);
      && Quiet(o.w) && (o.w.db == w.db || HasNow(w.db, o.w.db, uuid, asked))
      && (o.status.Returned? ==> HasNow(w.db, o.w.db, uuid, asked))
  {
    hide Call, Reads;
    var op := UpdateServers(None, Some(uuid), asked);
    WriteCall(w, op, Opts(field, true, None));
    WriteSets(w, uuid, asked, field);
  }

  lemma WriteSets(w: World, uuid: string, asked: Cols, field: string)
    requires Quiet(w)
    ensures
      var op := UpdateServers(None, Some(uuid), asked);
      var t := Call(w, op, NoSelector, Opts(field, true, None));
      && (Accepts(w.db, op) ==> HasNow(w.db, Commit(w.db, op, FreshId(w)), uuid, asked))
      && (!Accepts(w.db, op) ==> Commit(w.db, op, FreshId(w)) == w.db && t.answer.Threw?)
  {
    var op := UpdateServers(None, Some(uuid), asked);
    hide Accepted;
    if !Accepts(w.db, op) { RefusedThrows(w, op, Opts(field, true, None), 1); }
  }

  /** A write the store refuses never returns from a raising call. */
  lemma {:induction false} RefusedThrows(w: World, op: Op, o: Opts, a: nat)
    requires Quiet(w) && o.raises && op.UpdateServers? && !Accepts(w.db, op) && 1 <= a <= Tries(w)
    ensures Attempts(w, op, NoSelector, o, a).answer.Threw?
    decreases Tries(w) - a
  {
    hide Accepted, Reads;
    var sent := Exchange(w, op);
    assert Attempts(w, op, NoSelector, o, a) == Issue(w, op, NoSelector, o, a);
    if sent.answer.Threw? && !sent.answer.exn.Perm? && a < Tries(w) {
      SameRefusal(w.db, sent.w.db, op);
      RefusedThrows(Nap(sent.w, a), op, o, a + 1);
    }
  }

  lemma SameRefusal(a: Db, b: Db, op: Op)
    requires a.catalog == b.catalog
    ensures Accepts(a, op) == Accepts(b, op)
  {
  }

  lemma SetTwice(a: Db, b: Db, c: Db, uuid: string, x: Cols, y: Cols)
    requires HasNow(a, b, uuid, x) && HasNow(b, c, uuid, y) && "uuid" !in x
    ensures HasNow(a, c, uuid, x + y)
  {
    forall i | 0 <= i < |a.servers| ensures
      var s := a.servers[i];
      c.servers[i] == if "uuid" in s.cols && s.cols["uuid"] == Text(uuid) then Server(s.id, s.cols + (x + y)) else s
    {
      var s := a.servers[i];
      assert s.cols + x + y == s.cols + (x + y);
    }
  }

  /**
   A resize sets the payment and then the flavor, each where the message has it, on every row
   of its uuid and nowhere else; one that returned set both, and one that raised a part.
   */
  lemma ResizeSets(w: World, m: ResizeMsg)
    requires Quiet(w)
    ensures
      var o := Process(w, ResizeInstance(m));
      if m.instance.None? then o.w.db == w.db && o.status.Returned?
      else
        && (|| HasNow(w.db, o.w.db, m.instance.value, map[]) || HasNow(w.db, o.w.db, m.instance.value, Payment(m))
            || HasNow(w.db, o.w.db, m.instance.value, Payment(m) + Flavor(m)))
        && (o.status.Returned? ==> HasNow(w.db, o.w.db, m.instance.value, Payment(m) + Flavor(m)))
  {
    hide SetColumn, HasNow, CreateServer, Attach, Detach, Delete;
    if m.instance.Some? {
      var uuid := m.instance.value;
      NothingSet(w.db, uuid);
      var paid := if m.price.None? then Outcome(w, Returned) else SetColumn(w, uuid, map["server_monthly_payment" := m.price.value], "server_monthly_payment");
      if m.price.Some? { ColumnSet(w, uuid, Payment(m), "server_monthly_payment"); }
      assert Payment(m) + map[] == Payment(m);
      if paid.status.Returned? && m.flavor.Some? {
        ColumnSet(paid.w, uuid, Flavor(m), "flavor");
        var o := SetColumn(paid.w, uuid, Flavor(m), "flavor");
        if HasNow(paid.w.db, o.w.db, uuid, Flavor(m)) { SetTwice(w.db, paid.w.db, o.w.db, uuid, Payment(m), Flavor(m)); }
      }
    }
  }

  // -- delete ------------------------------------------------------------------------------------

  ghost predicate HasUuid(s: Server, uuid: string) { "uuid" in s.cols && s.cols["uuid"] == Text(uuid) }

  /** No row of this uuid is left, no rail of one, and everything else is, in its order. */
  ghost predicate Gone(before: Db, after: Db, uuid: string) {
    && after.endpoints == before.endpoints && after.ips == before.ips && after.catalog == before.catalog
    && after.servers == Filter(before.servers, (s: Server) => !HasUuid(s, uuid))
    && after.rails == Filter(before.rails, (r: Rail) => !exists s :: s in before.servers && s.id == r.serverId && HasUuid(s, uuid))
  }

  lemma ClearedIs(db: Db, uuid: string)
    requires uuid != ""
    ensures Gone(db, Cleared(db, None, Some(uuid)), uuid)
  {
    FilterSame(db.servers, NoneOf(None, Some(uuid)), (s: Server) => !HasUuid(s, uuid));
    forall r | r in db.rails
      ensures NotUnder(Targets(db, None, Some(uuid)))(r) == !exists s :: s in db.servers && s.id == r.serverId && HasUuid(s, uuid) { }
    FilterSame(db.rails, NotUnder(Targets(db, None, Some(uuid))),
               (r: Rail) => !exists s :: s in db.servers && s.id == r.serverId && HasUuid(s, uuid));
  }

  lemma ClearedNone(db: Db)
    ensures Cleared(db, None, None) == db
  {
    FilterAll(db.servers, NoneOf(None, None));
    FilterAll(db.rails, NotUnder(Targets(db, None, None)));
  }

  /** A delete by a uuid: one that returned took its rows and their rails away and nothing else; an empty uuid names none. */
  lemma DeleteTakes(w: World, m: DeleteMsg)
    requires Quiet(w) && Keyed(w.db)
    ensures
      var o := Process(w, DeleteInstance(m));
      o.status.Returned? ==> if m.instance.None? || m.instance.value == "" then o.w.db == w.db else Gone(w.db, o.w.db, m.instance.value)
  {
    hide RemoveServer, Cleared, Gone, CreateServer, Attach, Detach, Resize;
    if m.instance.Some? {
      ServerRemoved(w, m.instance.value, "");
      if m.instance.value == "" { ClearedNone(w.db); } else { ClearedIs(w.db, m.instance.value); }
    }
  }

  // -- messages that ask for nothing --------------------------------------------------------------

  /** A message without the part it is about, or of no known kind, is acked with nothing sent. */
  predicate AsksNothing(m: Message) {
    match m
    case CreateInstance(c) => c.instance.None?
    case DeleteInstance(d) => d.instance.None?
    case ResizeInstance(r) => r.instance.None? || (r.price.None? && r.flavor.None?)
    case AttachAddress(a) => a.instance.None? || a.port.None?
    case DetachAddress(d) => d.addr.None? || d.instance.None?
    case Unhandled => true
    case Undecodable => false
  }

  /** A body that is no JSON, or a create without its name or key, can never be handled. */
  predicate Unreadable(m: Message) {
    || m.Undecodable?
    || (m.CreateInstance? && m.create.instance.Some? && (m.create.instance.value.name.None? || m.create.instance.value.id.None?))
  }

  /** Such a message sends nothing: the former returns, the latter fails for good. */
  lemma NothingSent(w: World, m: Message)
    requires AsksNothing(m) || Unreadable(m)
    ensures
      var o := Process(w, m);
      && o.w.db == w.db && o.w.log == w.log && o.w.tape == w.tape
      && o.status == if Unreadable(m) then Raised(ContractError) else Returned
  {
  }
}
