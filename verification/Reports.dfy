/** How a create reports what it could not write: every entry, its weight, and what the row says of it. */
module Reports {
  import opened Basics
  import opened BondNames
  import opened Cmdb
  import opened Planning
  import opened Retry
  import opened RetryProofs
  import opened Attachments
  import opened Tags
  import opened TagLaws
  import opened Create
  import opened CreateProofs

  // -- what a failure means -----------------------------------------------------------------------------

  /** A write that fails is told in the details unless it is the flavor's, and marks the row unless it is the tenant's or the flavor's. */
  ghost predicate Weighed(x: FieldWrite) {
    && (x.mark <==> x.field != "tenant" && x.field != "flavor")
    && (x.listed <==> x.field != "flavor")
  }

  lemma {:induction false} StepsWeighed(ctx: Context, refs: set<string>, names: seq<string>)
    ensures forall x :: x in StepWrites(ctx, refs, names) ==> Weighed(x)
  {
    hide Resolve;
    if names != [] { StepsWeighed(ctx, refs, names[..|names| - 1]); }
  }

  lemma LeftoverWeighed(ctx: Context, refs: set<string>, t: Tag)
    requires t in Leftovers(ctx)
    ensures Weighed(TagWrite(refs)(t))
  {
    StepNamesAre();
    HeadOf(t.key, "tenant");
    HeadOf(t.key, "flavor");
    hide Head, TagMutation, Filter;
  }

  /** How the failure of each field write is reported. */
  lemma WritesWeighed(ctx: Context, refs: set<string>)
    ensures forall x :: x in CreateWrites(ctx, refs) ==> Weighed(x)
  {
    hide Weighed, StepWrites, TagWrite, Filter;
    StepsWeighed(ctx, refs, STEP_NAMES);
    var left := Leftovers(ctx);
    var writes := Map(left, TagWrite(refs));
    forall x | x in writes ensures Weighed(x) {
      var i :| 0 <= i < |writes| && writes[i] == x;
      LeftoverWeighed(ctx, refs, left[i]);
    }
  }

  /** A run failed when an entry marks the row. */
  lemma FailedIs(errors: seq<Entry>)
    ensures Failed(errors) <==> exists e :: e in errors && e.mark
  {
  }

  lemma {:induction false} JoinOne(entries: seq<Entry>, e: Entry)
    ensures JoinLines(entries + [e]) == if entries == [] then e.message else JoinLines(entries) + "\n" + e.message
  {
    if entries != [] {
      assert (entries + [e])[1..] == entries[1..] + [e];
      JoinOne(entries[1..], e);
      if |entries| > 1 {
        assert entries[0].message + "\n" + (JoinLines(entries[1..]) + "\n" + e.message) == entries[0].message + "\n" + JoinLines(entries[1..]) + "\n" + e.message;
      }
    }
  }

  /** The details are the listed messages in the order they were recorded, one to a line. */
  lemma DetailsAre(errors: seq<Entry>, e: Entry)
    ensures StatusDetails([]) == ""
    ensures
      StatusDetails(errors + [e]) ==
        if !e.listed then StatusDetails(errors)
        else if exists x :: x in errors && x.listed then StatusDetails(errors) + "\n" + e.message
        else e.message
  {
    var listed := Filter(errors, Listed());
    FilterSnoc(errors, e, Listed());
    if e.listed {
      JoinOne(listed, e);
      if x :| x in errors && x.listed { assert x in listed; }
      if listed != [] { assert listed[0] in listed; }
    } else {
      assert listed + [] == listed;
    }
  }

  // -- every entry of a create --------------------------------------------------------------------------

  /** How an entry counts, told from the field it is about. */
  ghost predicate WeighedEntry(e: Entry) {
    (e.mark <==> e.field != "tenant" && e.field != "flavor") && (e.listed <==> e.field != "flavor")
  }

  ghost predicate AllWeighed(w: World, w': World) {
    w.errors <= w'.errors && forall i :: |w.errors| <= i < |w'.errors| ==> WeighedEntry(w'.errors[i])
  }

  lemma WeighedOn(w: World, w1: World, w': World)
    requires AllWeighed(w, w1) && AllWeighed(w1, w')
    ensures AllWeighed(w, w')
  {
    hide WeighedEntry;
    forall i | |w.errors| <= i < |w'.errors| ensures WeighedEntry(w'.errors[i]) {
      if i < |w1.errors| { assert w'.errors[i] == w1.errors[i]; }
    }
  }

  /** A call whose report counts as its field says. */
  predicate WellWeighed(o: Opts) {
    o.report.Some? ==>
      && (o.report.value.mark <==> o.field != "tenant" && o.field != "flavor")
      && (o.report.value.listed <==> o.field != "flavor")
  }

  lemma Unchanged(w: World, w': World)
    requires w'.errors == w.errors
    ensures AllWeighed(w, w')
  {
  }

  lemma {:induction false} IssueWeighed(w: World, op: Op, sel: Selector, o: Opts, a: nat)
    requires 1 <= a <= Tries(w) && WellWeighed(o)
    ensures AllWeighed(w, Issue(w, op, sel, o, a).w)
    decreases Weight(sel), 1, Tries(w) - a, 0
  {
    hide Met, Commit, Reads, Attempts, AllWeighed;
    var sent := Exchange(w, op);
    Unchanged(w, sent.w);
    if sent.answer.Threw? && sent.answer.exn.Perm? {
      FailWeighed(sent.w, o);
      WeighedOn(w, sent.w, Fail(sent.w, o).w);
    } else if sent.answer.Threw? && a < Tries(w) {
      var next := Nap(sent.w, a);
      Unchanged(w, next);
      CallWeighed(next, op, sel, o, a + 1);
      WeighedOn(w, next, Attempts(next, op, sel, o, a + 1).w);
    }
  }

  lemma FailWeighed(w: World, o: Opts)
    requires WellWeighed(o)
    ensures AllWeighed(w, Fail(w, o).w)
  {
  }

  /** A call records what its options say, if anything. */
  lemma {:induction false} CallWeighed(w: World, op: Op, sel: Selector, o: Opts, a: nat)
    requires 1 <= a <= Tries(w) && WellWeighed(o)
    ensures AllWeighed(w, Attempts(w, op, sel, o, a).w)
    decreases Weight(sel), 1, Tries(w) - a, 1
  {
    hide Issue, Reselect, AllWeighed;
    if sel.NoSelector? || a == 1 {
      IssueWeighed(w, op, sel, o, a);
    } else {
      var found := Reselect(w, sel);
      ReselectWeighed(w, sel);
      if found.answer.Threw? && a < Tries(w) {
        var next := Nap(found.w, a);
        Unchanged(found.w, next);
        WeighedOn(w, found.w, next);
        CallWeighed(next, op, sel, o, a + 1);
        WeighedOn(w, next, Attempts(next, op, sel, o, a + 1).w);
      } else if found.answer == Got(Nothing) {
        IssueWeighed(found.w, op, sel, o, a);
        WeighedOn(w, found.w, Issue(found.w, op, sel, o, a).w);
      }
    }
  }

  lemma {:induction false} ReselectWeighed(w: World, sel: Selector)
    requires !sel.NoSelector?
    ensures AllWeighed(w, Reselect(w, sel).w)
    decreases Weight(sel), 0, 0, 0
  {
    hide Met, Commit, Reads, Attempts;
    match sel
    case Once(query) =>
    case AttachedIp(addr, uuid) => ProbeSilent(w, addr, uuid, 1);
    case AttachEndpoint(addr, uuid, server, name) => ProbeSilent(w, addr, uuid, 1);
  }

  lemma CalledWeighed(w: World, op: Op, sel: Selector, o: Opts)
    requires WellWeighed(o)
    ensures AllWeighed(w, Call(w, op, sel, o).w)
  {
    hide Attempts, AllWeighed;
    CallWeighed(w, op, sel, o, 1);
  }

  lemma RecordedWeighed(w: World, field: string)
    requires field != "tenant" && field != "flavor"
    ensures AllWeighed(w, Recorded(w, field))
  {
  }

  lemma {:induction false} AddrsWeighed(w: World, dc: string, card: Id, addrs: seq<string>, used: set<Option<string>>)
    ensures AllWeighed(w, PersistAddrs(w, dc, card, addrs, used).w)
    decreases |addrs|
  {
    hide Call, AllWeighed, First;
    Unchanged(w, w);
    if addrs != [] {
      var s, o := PersistAddrs(w, dc, card, addrs, used), Opts("network_prefix", false, Some(RECORDED));
      var prefix := NetPrefix(w, addrs[0], dc, Some(RECORDED));
      assert prefix.w == Call(w, SelectPrefixes(dc), NoSelector, o).w;
      CalledWeighed(w, SelectPrefixes(dc), NoSelector, o);
      hide NetPrefix;
      if prefix.Fine? && prefix.value.None? {
        var w1 := Recorded(prefix.w, "network_prefix");
        RecordedWeighed(prefix.w, "network_prefix");
        AddrsWeighed(w1, dc, card, addrs[1..], used);
        WeighedOn(w, prefix.w, w1);
        WeighedOn(w, w1, s.w);
      } else if prefix.Fine? {
        var p := prefix.value.value;
        var kind := ResolveIpType(p.kind, used);
        var op, sel := InsertIp(card, addrs[0], Some(kind), Some(p.id)), Once(SelectIp(addrs[0], card, Some(p.id)));
        var t := Call(prefix.w, op, sel, RECORDS_IP);
        CalledWeighed(prefix.w, op, sel, RECORDS_IP);
        WeighedOn(w, prefix.w, t.w);
        if t.answer.Got? {
          AddrsWeighed(t.w, dc, card, addrs[1..], used + {Some(kind)});
          WeighedOn(w, t.w, s.w);
        }
      }
    }
  }

  lemma {:induction false} CardsWeighed(w: World, dc: string, server: Id, cards: seq<Card>, taken: seq<string>, used: set<Option<string>>)
    ensures AllWeighed(w, PersistCards(w, dc, server, cards, taken, used).w)
    decreases |cards|
  {
    hide Call, AllWeighed, PersistAddrs, CardName, CardSelector;
    Unchanged(w, w);
    if cards != [] {
      var s := PersistCards(w, dc, server, cards, taken, used);
      var card, name := cards[0], CardName(cards[0], taken);
      var taken' := if card.placeholder then taken + [name] else taken;
      var op, sel := InsertEndpoint(server, name, card.mac, card.name), CardSelector(server, card, name);
      var t := Call(w, op, sel, RECORDS_ENDPOINT);
      CalledWeighed(w, op, sel, RECORDS_ENDPOINT);
      if t.answer.Got? && t.answer.reply.EndpointRef? {
        var addrs := PersistAddrs(t.w, dc, t.answer.reply.endpoint, card.addresses, used);
        AddrsWeighed(t.w, dc, t.answer.reply.endpoint, card.addresses, used);
        WeighedOn(w, t.w, addrs.w);
        if addrs.Fine? {
          CardsWeighed(addrs.w, dc, server, cards[1..], taken', addrs.value);
          WeighedOn(w, addrs.w, s.w);
        }
      } else if t.answer.Got? {
        CardsWeighed(t.w, dc, server, cards[1..], taken', used);
        WeighedOn(w, t.w, s.w);
      }
    }
  }

  lemma {:induction false} ReplayWeighed(w: World, ctx: Context, writes: seq<FieldWrite>)
    requires forall x :: x in writes ==> Weighed(x)
    ensures AllWeighed(w, ReplayWrites(w, ctx, writes).w)
    decreases |writes|
  {
    hide Call, AllWeighed;
    Unchanged(w, w);
    if writes != [] {
      var x, s := writes[0], ReplayWrites(w, ctx, writes);
      var t := UpdateRow(w, ctx, x.mutation, WriteOpts(x));
      assert Weighed(x);
      CalledWeighed(w, UpdateServers(Some(ctx.hostname), Some(ctx.uuid), x.mutation), NoSelector, WriteOpts(x));
      if t.answer.Got? {
        ReplayWeighed(t.w, ctx, writes[1..]);
        WeighedOn(w, t.w, s.w);
      }
    }
  }

  lemma FieldsWeighed(w: World, ctx: Context)
    ensures AllWeighed(w, WriteFields(w, ctx).w)
  {
    hide Call, AllWeighed, CreateWrites, Merge, ReplayWrites, Weighed;
    Unchanged(w, w);
    var writes, o := CreateWrites(ctx, w.db.catalog.refs), Opts("batch", false, None);
    if Merge(writes) != map[] {
      var t := UpdateRow(w, ctx, Merge(writes), o);
      CalledWeighed(w, UpdateServers(Some(ctx.hostname), Some(ctx.uuid), Merge(writes)), NoSelector, o);
      WritesWeighed(ctx, w.db.catalog.refs);
      if t.answer == Got(Nothing) {
        ReplayWeighed(t.w, ctx, writes);
        WeighedOn(w, t.w, WriteFields(w, ctx).w);
      }
    }
  }

  lemma FillWeighed(w: World, ctx: Context, server: Id, cards: seq<Card>)
    ensures AllWeighed(w, Fill(w, ctx, server, cards).w)
  {
    hide Call, AllWeighed, WriteFields, PersistCards, FinalState, BondTaken;
    var o, fields := Fill(w, ctx, server, cards), WriteFields(w, ctx);
    FieldsWeighed(w, ctx);
    if fields.Fine? {
      var net := Persist(fields.w, ctx, server, cards);
      CardsWeighed(fields.w, ctx.dcName, server, cards, BondTaken(cards), {});
      WeighedOn(w, fields.w, net.w);
      if net.Fine? {
        CalledWeighed(net.w, UpdateServers(Some(ctx.hostname), Some(ctx.uuid), FinalState(ctx, net.w.errors)), NoSelector, RECORDS_STATE);
        WeighedOn(w, net.w, o.w);
      }
    }
  }

  lemma ContextWeighed(w: World, m: CreateMsg)
    ensures AllWeighed(w, BuildContext(w, m).w)
  {
    hide Call, AllWeighed, First, Read, WithoutState, CmdbTags;
    Unchanged(w, w);
    if Readable(m) {
      var s, t := BuildContext(w, m), Call(w, SelectCloud(m.project), NoSelector, RAISES_CLOUD);
      CalledWeighed(w, SelectCloud(m.project), NoSelector, RAISES_CLOUD);
      if t.answer.Got? {
        TenantWeighed(t.w, WithoutState(CmdbTags(m.instance.value.metadata)));
        hide FindCapTenant;
        WeighedOn(w, t.w, s.w);
      }
    }
  }

  lemma TenantWeighed(w: World, tags: seq<Tag>)
    ensures AllWeighed(w, FindCapTenant(w, tags).w)
  {
    hide Call, AllWeighed, First;
    Unchanged(w, w);
    match First(tags, HasKey(CAP_TENANT_TAG))
    case None =>
    case Some(tag) =>
      var t := Call(w, SelectCapTenant(tag.value), NoSelector, RAISES_CAP_TENANT);
      CalledWeighed(w, SelectCapTenant(tag.value), NoSelector, RAISES_CAP_TENANT);
      RecordedWeighed(t.w, "cap_tenant");
      WeighedOn(w, t.w, Recorded(t.w, "cap_tenant"));
  }

  lemma {:induction false} RailsWeighed(w: World, rails: seq<Id>)
    ensures AllWeighed(w, RemoveRails(w, rails).w)
    decreases |rails|
  {
    hide Call, AllWeighed;
    Unchanged(w, w);
    if rails != [] {
      var t := Call(w, DeleteRail(rails[0]), NoSelector, RAISES_RAILS);
      CalledWeighed(w, DeleteRail(rails[0]), NoSelector, RAISES_RAILS);
      if t.answer.Got? {
        RailsWeighed(t.w, rails[1..]);
        WeighedOn(w, t.w, RemoveRails(w, rails).w);
      }
    }
  }

  lemma {:induction false} RemovalWeighed(w: World, found: seq<Doomed>)
    ensures AllWeighed(w, RemoveAll(w, found).w)
    decreases |found|
  {
    hide Call, AllWeighed, RemoveRails;
    Unchanged(w, w);
    if found != [] {
      var rails, one := RemoveRails(w, found[0].rails), RemoveOne(w, found[0]);
      RailsWeighed(w, found[0].rails);
      if rails.Fine? {
        CalledWeighed(rails.w, DeleteServer(found[0].server), NoSelector, RAISES_SERVER_DELETE);
        WeighedOn(w, rails.w, one.w);
      }
      if one.Fine? {
        RemovalWeighed(one.w, found[1..]);
        WeighedOn(w, one.w, RemoveAll(w, found).w);
      }
    }
  }

  lemma RecreateWeighed(w: World, ctx: Context)
    ensures AllWeighed(w, Recreate(w, ctx).w)
  {
    hide Call, AllWeighed, RemoveAll, NewServer;
    var op, removed := SelectServers(NonEmpty(ctx.hostname), NonEmpty(ctx.uuid)), RemoveServer(w, ctx.uuid, ctx.hostname);
    var t := Call(w, op, NoSelector, RAISES_SELECT);
    CalledWeighed(w, op, NoSelector, RAISES_SELECT);
    if t.answer.Got? && t.answer.reply.ServerList? {
      RemovalWeighed(t.w, t.answer.reply.found);
      WeighedOn(w, t.w, removed.w);
    }
    if removed.Fine? {
      var insert, sel := InsertServer(NewServer(ctx)), Once(SelectServerByHostname(ctx.hostname));
      CalledWeighed(removed.w, insert, sel, RAISES_SERVER_INSERT);
      WeighedOn(w, removed.w, Call(removed.w, insert, sel, RAISES_SERVER_INSERT).w);
    }
  }

  /**
   Every entry a create records, under every tape: it puts the row in error unless it is about
   the tenant or the flavor, and is told in the row's details unless it is about the flavor.
   */
  lemma EntriesWeighed(w: World, m: CreateMsg)
    ensures forall e :: e in CreateServer(w, m).w.errors ==> WeighedEntry(e)
  {
    hide AllWeighed, BuildContext, Recreate, Fill, Cards, WeighedEntry;
    var o, w0 := CreateServer(w, m), w.(errors := []);
    var c := BuildContext(w0, m);
    ContextWeighed(w0, m);
    if c.Fine? && c.value.Some? {
      var row := Recreate(c.w, c.value.value);
      RecreateWeighed(c.w, c.value.value);
      WeighedOn(w0, c.w, row.w);
      if row.Fine? {
        FillWeighed(row.w, c.value.value, row.value, Cards(m));
        WeighedOn(w0, row.w, o.w);
      }
    }
    AllOfThem(w0, o.w);
  }

  lemma AllOfThem(w: World, w': World)
    requires AllWeighed(w, w') && w.errors == []
    ensures forall e :: e in w'.errors ==> WeighedEntry(e)
  {
    hide WeighedEntry;
  }
}
