/** The server row a create leaves, told from the message and the store, and how it reports what it could not write. */
module FieldValues {
  import opened Basics
  import opened Cmdb
  import opened Planning
  import opened Retry
  import opened RetryProofs
  import opened StoreFacts
  import opened Attachments
  import opened AttachConverges
  import opened Tags
  import opened TagsProofs
  import opened TagLaws
  import opened Create
  import opened FieldProofs
  import opened RecreateProofs
  import opened CreateProofs
  import opened CreateConverges
  import opened CleanCreate

  // -- reading the message ---------------------------------------------------------------------

  predicate IsUpper(c: char, u: char) {
    if 'a' <= c <= 'z' then u as int == c as int - 32 else u == c
  }

  /** The hostname up to its first dash, in capitals. */
  ghost predicate DcNameOf(hostname: string, dc: string) {
    && |dc| <= |hostname| && (forall i :: 0 <= i < |dc| ==> hostname[i] != '-' && IsUpper(hostname[i], dc[i]))
    && (|dc| < |hostname| ==> hostname[|dc|] == '-')
  }

  lemma {:induction false} DcNameIs(hostname: string)
    ensures DcNameOf(hostname, DcName(hostname))
  {
    if hostname != [] && hostname[0] != '-' {
      DcNameIs(hostname[1..]);
      var rest := DcName(hostname[1..]);
      assert BeforeDash(hostname) == [hostname[0]] + BeforeDash(hostname[1..]);
      assert DcName(hostname)[1..] == rest;
      forall i | 0 <= i < |DcName(hostname)| ensures hostname[i] != '-' && IsUpper(hostname[i], DcName(hostname)[i]) {
        if i > 0 { assert hostname[1..][i - 1] == hostname[i]; }
      }
      if |DcName(hostname)| < |hostname| { assert hostname[1..][|rest|] == hostname[|rest| + 1]; }
    }
  }

  /** What the metadata says under this key. */
  function Said(metadata: seq<Tag>, key: string): Option<string> {
    match First(metadata, HasKey(key))
    case Some(t) => Some(t.value)
    case None => None
  }

  /** The cap tenant the message names, if the store has it. */
  function NamedTenant(metadata: seq<Tag>, catalog: Catalog): Option<CapTenant> {
    match Said(metadata, "cmdb.cap_tenant.name")
    case Some(name) => if name in catalog.tenants then Some(catalog.tenants[name]) else None
    case None => None
  }

  /** Its tags may name any column: it has a cap tenant, or it is a cluster node's. */
  function MayNameAny(metadata: seq<Tag>, catalog: Catalog): bool {
    NamedTenant(metadata, catalog).Some? || Said(metadata, "provisioner.example-org/clusterID").Some?
  }

  /** The tags of the message that may be written, in its order. */
  function OwnTags(metadata: seq<Tag>, catalog: Catalog): seq<Tag> {
    Map(Filter(metadata, Counts(MayNameAny(metadata, catalog))), Unprefixed())
  }

  lemma KeyUnderPrefix(t: Tag, key: string)
    ensures Both(Prefixed(CMDB_PREFIX), On(Stripped(), HasKey(key)))(t) <==> t.key == "cmdb." + key
  {
    assert ("cmdb." + key)[..5] == "cmdb." && ("cmdb." + key)[5..] == key;
    if StartsWith(t.key, CMDB_PREFIX) { assert t.key == t.key[..5] + t.key[5..]; }
  }

  /** A tag's value is what the metadata says under the prefixed key. */
  lemma SaidUnderPrefix(metadata: seq<Tag>, key: string)
    ensures Said(CmdbTags(metadata), key) == Said(metadata, "cmdb." + key)
  {
    var p, q := Prefixed(CMDB_PREFIX), On(Stripped(), HasKey(key));
    FirstOfMap(Filter(metadata, p), Stripped(), HasKey(key));
    FirstOfFilter(metadata, p, q);
    forall t | t in metadata ensures Both(p, q)(t) == HasKey("cmdb." + key)(t) { KeyUnderPrefix(t, key); }
    hide First, Filter, Map, Prefixed, Stripped;
    FilterSame(metadata, Both(p, q), HasKey("cmdb." + key));
  }

  lemma WithoutStateSays(tags: seq<Tag>, key: string)
    requires key != "state" && !StartsWith(key, "state.")
    ensures Said(WithoutState(tags), key) == Said(tags, key)
  {
    FirstOfFilter(Filter(tags, LacksKey("state")), NotPrefixed("state."), HasKey(key));
    FirstOfFilter(tags, LacksKey("state"), Both(NotPrefixed("state."), HasKey(key)));
    var p := Both(LacksKey("state"), Both(NotPrefixed("state."), HasKey(key)));
    forall t | t in tags ensures p(t) == HasKey(key)(t) { }
    hide First, Filter, StartsWith;
    FilterSame(tags, p, HasKey(key));
  }

  lemma OtherStart(s: string, p: string)
    requires s != [] && p != [] && s[0] != p[0]
    ensures !StartsWith(s, p)
  {
    if |p| <= |s| { assert s[..|p|][0] == s[0]; }
  }

  lemma TenantIs(metadata: seq<Tag>, catalog: Catalog)
    ensures TenantOf(catalog, WithoutState(CmdbTags(metadata))) == NamedTenant(metadata, catalog)
  {
    OtherStart(CAP_TENANT_TAG, "state.");
    hide CmdbTags, WithoutState, First, StartsWith;
    assert "cmdb." + CAP_TENANT_TAG == "cmdb.cap_tenant.name";
    WithoutStateSays(CmdbTags(metadata), CAP_TENANT_TAG);
    SaidUnderPrefix(metadata, CAP_TENANT_TAG);
  }

  /** The state a finished create is left in: what `cmdb.state` says, else `ready`. */
  function AskedState(metadata: seq<Tag>): string {
    match Said(metadata, "cmdb.state") { case Some(state) => state case None => "ready" }
  }

  lemma StateIs(metadata: seq<Tag>)
    ensures ReadyState(CmdbTags(metadata)) == AskedState(metadata)
  {
    hide CmdbTags, First;
    assert "cmdb." + "state" == "cmdb.state";
    SaidUnderPrefix(metadata, "state");
  }

  /** The context of a message, part by part. */
  lemma ContextSays(w: World, m: CreateMsg)
    requires Usable(m)
    ensures
      var ctx, i, catalog := Ctx(w, m), m.instance.value, w.db.catalog;
      && ctx.hostname == i.name.value && ctx.uuid == i.id.value && DcNameOf(i.name.value, ctx.dcName)
      && ctx.region == m.region && ctx.project == m.project && ctx.flavor == i.flavor && ctx.price == m.price
      && ctx.cloud == (if m.project in catalog.clouds then Some(catalog.clouds[m.project]) else None)
      && ctx.capTenant == NamedTenant(i.metadata, catalog) && ctx.tags == OwnTags(i.metadata, catalog)
      && ctx.readyState == AskedState(i.metadata)
  {
    var i, catalog := m.instance.value, w.db.catalog;
    hide KeptTags, CmdbTags, WithoutState, TenantOf, NamedTenant, First, ReadyState, Counts, Filter, Map, DcName;
    DcNameIs(i.name.value);
    TenantIs(i.metadata, catalog);
    StateIs(i.metadata);
    KeptExactly(i.metadata, NamedTenant(i.metadata, catalog).Some? || IsK8sNode(i.metadata));
  }

  // -- the row of a clean create -----------------------------------------------------------------------

  /** The columns a message asks for: its row, what its steps write, what its leftover tags write over that, and its state. */
  ghost predicate RowAsAsked(cols: Cols, m: CreateMsg, catalog: Catalog, dc: string, steps: Cols, left: Cols)
    requires Usable(m)
  {
    var i := m.instance.value;
    var tags := OwnTags(i.metadata, catalog);
    && cols == map["hostname" := Text(i.name.value), "uuid" := Text(i.id.value), "importer" := Text("[K8S]instance_handler_v2")]
               + steps + left + map["state" := Text(AskedState(i.metadata))]
    && DcNameOf(i.name.value, dc)
    && AsAsked(steps, dc, m.region, m.project, i.flavor, m.price, NamedTenant(i.metadata, catalog),
               if m.project in catalog.clouds then Some(catalog.clouds[m.project]) else None, tags, catalog.refs)
    && AsTagged(left, tags, catalog.refs)
  }

  /**
   After any retries, the row of a create that finishes and reports nothing has in every column
   what the message asks for: from its cap tenant where it names one, else from its tags, else
   from its cloud project, else the default.
   */
  lemma CleanColumns(w: World, m: CreateMsg, n: nat) returns (dc: string, steps: Cols, left: Cols)
    requires Quiet(w) && Sound(w) && Usable(m) && SafeTags(Ctx(w, m), w.db.catalog) && Clean(Creates(w, m, n).w, m)
    ensures
      var servers := CreateServer(Creates(w, m, n).w, m).w.db.servers;
      servers != [] && RowAsAsked(servers[|servers| - 1].cols, m, w.db.catalog, dc, steps, left)
  {
    hide Creates, SafeTags, Clean, Sound, Base, CreateServer, FinalCols, RowAsAsked, ContextOf;
    FinishRow(w, m, n);
    dc, steps, left := FinalAsAsked(w, m);
  }

  lemma FinalAsAsked(w: World, m: CreateMsg) returns (dc: string, steps: Cols, left: Cols)
    requires Usable(m)
    ensures RowAsAsked(FinalCols(Ctx(w, m), w.db.catalog.refs), m, w.db.catalog, dc, steps, left)
  {
    hide ContextOf, Merge, CreateWrites, NewServer, AsAsked, AsTagged, OwnTags, NamedTenant, AskedState, DcNameOf;
    ContextSays(w, m);
    var ctx := Ctx(w, m);
    dc := ctx.dcName;
    steps, left := BatchAsAsked(ctx, w.db.catalog.refs);
    SetupGoes(ctx, steps + left);
    FreshGoes(ctx, steps, left);
  }

  lemma FreshGoes(ctx: Context, steps: Cols, left: Cols)
    ensures
      var own := map["hostname" := Text(ctx.hostname), "uuid" := Text(ctx.uuid), "importer" := Text("[K8S]instance_handler_v2")];
      own + (steps + left) == own + steps + left
  {
  }

  lemma SetupGoes(ctx: Context, batch: Cols)
    ensures
      NewServer(ctx) + batch + map["state" := Text(ctx.readyState)] ==
      map["hostname" := Text(ctx.hostname), "uuid" := Text(ctx.uuid), "importer" := Text("[K8S]instance_handler_v2")]
        + batch + map["state" := Text(ctx.readyState)]
  {
  }
}
