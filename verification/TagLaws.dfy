/** What a create writes into each column of its row, told from the message's tags and the store alone. */
module TagLaws {
  import opened Basics
  import opened Cmdb
  import opened Tags
  import opened TagsProofs

  // -- which tags count ----------------------------------------------------------------------

  /** The tag names this field, or one of its own fields. */
  predicate Of(key: string, field: string) { key == field || field + "." <= key }

  /** The tags of the metadata that may be written, under the key past `cmdb.`. */
  predicate MayWrite(key: string, trusted: bool) {
    && !Of(key, "state") && key != "cap_tenant.name"
    && (trusted || Of(key, "responsible") || Of(key, "owner") || Of(key, "role") || Of(key, "project") || Of(key, "task"))
  }

  function Counts(trusted: bool): Tag -> bool { (t: Tag) => "cmdb." <= t.key && MayWrite(t.key[5..], trusted) }
  function Unprefixed(): Tag -> Tag { (t: Tag) => Tag(if |t.key| >= 5 then t.key[5..] else "", t.value) }

  lemma HeadOf(key: string, field: string)
    requires '.' !in field
    ensures Of(key, field) <==> Head(key) == field
  {
    BelongsIsHead(Tag(key, ""), field);
    assert StartsWith(key, field + ".") <==> field + "." <= key;
  }

  lemma InWhitelist(key: string)
    ensures !Of(key, "state") ==>
      (Head(key) in WHITELIST <==>
         Of(key, "responsible") || Of(key, "owner") || Of(key, "role") || Of(key, "project") || Of(key, "task"))
  {
    HeadOf(key, "state");
    HeadOf(key, "responsible");
    HeadOf(key, "owner");
    HeadOf(key, "role");
    HeadOf(key, "project");
    HeadOf(key, "task");
    hide Head, Of;
    assert WHITELIST[0] == "state" && WHITELIST[1] == "responsible" && WHITELIST[2] == "owner" && WHITELIST[3] == "role"
        && WHITELIST[4] == "project" && WHITELIST[5] == "task";
  }

  /** The filters a message's tags go through, in one. */
  function Survives(trusted: bool): Tag -> bool {
    var free := Both(Both(LacksKey("state"), NotPrefixed("state.")), LacksKey(CAP_TENANT_TAG));
    if trusted then free else Both(free, Whitelisted())
  }

  lemma KeptOnce(tags: seq<Tag>, trusted: bool)
    ensures KeptTags(tags, trusted) == Filter(tags, Survives(trusted))
  {
    hide Filter;
    FilterTwice(tags, LacksKey("state"), NotPrefixed("state."));
    FilterTwice(tags, Both(LacksKey("state"), NotPrefixed("state.")), LacksKey(CAP_TENANT_TAG));
    FilterTwice(tags, Both(Both(LacksKey("state"), NotPrefixed("state.")), LacksKey(CAP_TENANT_TAG)), Whitelisted());
  }

  lemma SameKey(t: Tag, trusted: bool)
    ensures Survives(trusted)(t) == MayWrite(t.key, trusted)
  {
    InWhitelist(t.key);
    StateKey(t.key);
    hide Of, Head, StartsWith;
  }

  lemma StateKey(key: string)
    ensures Of(key, "state") <==> key == "state" || StartsWith(key, "state.")
  {
    assert "state" + "." == "state.";
  }

  lemma SameTag(t: Tag, trusted: bool)
    ensures Both(Prefixed(CMDB_PREFIX), On(Stripped(), Survives(trusted)))(t) == Counts(trusted)(t)
  {
    hide Survives, MayWrite;
    assert "cmdb." <= t.key <==> StartsWith(t.key, CMDB_PREFIX);
    if |t.key| >= 5 { SameKey(Tag(t.key[5..], t.value), trusted); }
    hide StartsWith;
  }

  /** The tags a create works on: those of its metadata that count, in their order, without `cmdb.`. */
  lemma KeptExactly(metadata: seq<Tag>, trusted: bool)
    ensures KeptTags(CmdbTags(metadata), trusted) == Map(Filter(metadata, Counts(trusted)), Unprefixed())
  {
    var p, q := Prefixed(CMDB_PREFIX), On(Stripped(), Survives(trusted));
    KeptOnce(CmdbTags(metadata), trusted);
    FilterOfMap(Filter(metadata, p), Stripped(), Survives(trusted));
    FilterTwice(metadata, p, q);
    forall t | t in metadata ensures Both(p, q)(t) == Counts(trusted)(t) { SameTag(t, trusted); }
    hide Filter, Map, KeptTags, Counts, Prefixed, Survives;
    FilterSame(metadata, Both(p, q), Counts(trusted));
    MapEqual(Filter(metadata, Counts(trusted)), Stripped(), Unprefixed());
  }

  // -- what one tag writes -------------------------------------------------------------------------

  /** The field a plain tag of a referred class is looked up by. */
  function LookupKey(key: string): string {
    match key
    case "tenant" => "tenant"
    case "rails" => "code"
    case "cost_center" => "cc"
    case _ => "name"
  }

  /** `column.field` looks the field up; a plain key is the text itself, or a look-up where it is a reference. */
  ghost predicate Says(t: Tag, refs: set<string>, column: string, value: Value) {
    && '.' !in column
    && if t.key == column
       then value == (if column != "" && column !in refs then Text(t.value) else Lookup(map[LookupKey(column) := t.value]))
       else column + "." <= t.key && value == Lookup(map[t.key[|column| + 1..] := t.value])
  }

  lemma TagSays(t: Tag, refs: set<string>)
    ensures Says(t, refs, TagColumn(t.key), TagValue(t, refs))
    ensures TagColumn(t.key) == Head(t.key) && '.' !in TagColumn(t.key)
  {
    ColumnIsHead(t.key);
    if '.' in t.key {
      assert Dot(t.key) < |t.key| by { assert t.key[..|t.key|] == t.key; }
      assert t.key[..Dot(t.key) + 1] == Head(t.key) + ".";
    }
  }

  // -- the last tag of a column decides --------------------------------------------------------------

  ghost predicate LastOf(tags: seq<Tag>, field: string, k: nat) {
    k < |tags| && Of(tags[k].key, field) && forall j :: k < j < |tags| ==> !Of(tags[j].key, field)
  }

  /** This column holds what the last tag of its name says. */
  ghost predicate LastSays(cols: Cols, tags: seq<Tag>, refs: set<string>, column: string) {
    column in cols && exists k: nat :: LastOf(tags, column, k) && Says(tags[k], refs, column, cols[column])
  }

  ghost predicate Named(tags: seq<Tag>, field: string) { exists t :: t in tags && Of(t.key, field) }

  lemma LastSaysOn(front: seq<Tag>, t: Tag, cols: Cols, cols': Cols, refs: set<string>, column: string)
    requires LastSays(cols, front, refs, column) && !Of(t.key, column)
    requires column in cols' && cols'[column] == cols[column]
    ensures LastSays(cols', front + [t], refs, column)
  {
    var tags := front + [t];
    var k: nat :| LastOf(front, column, k) && Says(front[k], refs, column, cols[column]);
    assert tags[k] == front[k] && LastOf(tags, column, k);
  }

  lemma LastSaysNew(front: seq<Tag>, t: Tag, cols: Cols, refs: set<string>)
    requires TagColumn(t.key) in cols && cols[TagColumn(t.key)] == TagValue(t, refs)
    ensures LastSays(cols, front + [t], refs, TagColumn(t.key))
  {
    TagSays(t, refs);
    HeadOf(t.key, Head(t.key));
    assert LastOf(front + [t], TagColumn(t.key), |front|) && (front + [t])[|front|] == t;
  }

  /** What the tags of one field write: what the last of them says, in the field's column and nowhere else. */
  ghost predicate WritesField(tags: seq<Tag>, own: seq<Tag>, refs: set<string>, field: string) {
    && (own != [] <==> Named(tags, field))
    && (own != [] ==> TagMutation(own, refs).Keys == {field} && LastSays(TagMutation(own, refs), tags, refs, field))
  }

  lemma FieldOff(front: seq<Tag>, t: Tag, own: seq<Tag>, refs: set<string>, field: string)
    requires WritesField(front, own, refs, field) && !Of(t.key, field)
    ensures WritesField(front + [t], own, refs, field)
  {
    hide Of, Says, LastSays;
    if own != [] { LastSaysOn(front, t, TagMutation(own, refs), TagMutation(own, refs), refs, field); }
    assert forall x :: x in front + [t] <==> x in front || x == t;
  }

  lemma FieldOn(front: seq<Tag>, t: Tag, own: seq<Tag>, refs: set<string>, field: string)
    requires WritesField(front, own, refs, field) && '.' !in field && Of(t.key, field)
    ensures WritesField(front + [t], own + [t], refs, field)
  {
    HeadOf(t.key, field);
    TagSays(t, refs);
    hide Of, Says, LastSays, Head, TagColumn, TagValue;
    assert (own + [t])[..|own|] == own && t in front + [t];
    assert own == [] ==> TagMutation(own, refs) == map[];
    LastSaysNew(front, t, TagMutation(own + [t], refs), refs);
  }

  lemma {:induction false} FieldSays(tags: seq<Tag>, refs: set<string>, field: string)
    requires '.' !in field
    ensures WritesField(tags, Filter(tags, BelongsTo(field)), refs, field)
  {
    hide WritesField;
    if tags == [] {
      NoTags(refs, field);
    } else {
      var front, t := tags[..|tags| - 1], tags[|tags| - 1];
      FieldSays(front, refs, field);
      assert tags == front + [t];
      FilterSnoc(front, t, BelongsTo(field));
      BelongsIsHead(t, field);
      HeadOf(t.key, field);
      hide Filter, Of, Head;
      if BelongsTo(field)(t) {
        FieldOn(front, t, Filter(front, BelongsTo(field)), refs, field);
      } else {
        FieldOff(front, t, Filter(front, BelongsTo(field)), refs, field);
        assert Filter(front, BelongsTo(field)) + [] == Filter(front, BelongsTo(field));
      }
    }
  }

  lemma NoTags(refs: set<string>, field: string)
    ensures WritesField([], [], refs, field)
  {
  }

  // -- the steps --------------------------------------------------------------------------------------

  ghost predicate Column(cols: Cols, name: string, value: Option<Value>) {
    if value.Some? then name in cols && cols[name] == value.value else name !in cols
  }

  function TextOrNull(s: Option<string>): Value { if s.Some? then Text(s.value) else Null }

  /**
   Who decides a column that may hold a key (`keyed`) or a look-up (`plain`): the cap tenant where there
   is one; else the last tag of that name; else what the cloud project knows; else the default.
   */
  ghost predicate Ladder(
    cols: Cols, plain: string, keyed: string, tenant: Option<Option<string>>, tags: seq<Tag>, refs: set<string>,
    cloud: Option<string>, fallback: string, value: string)
  {
    if tenant.Some? then Column(cols, keyed, Some(TextOrNull(tenant.value))) && Column(cols, plain, None)
    else if Named(tags, plain) then LastSays(cols, tags, refs, plain) && Column(cols, keyed, None)
    else if cloud.Some? && cloud.value != "" then Column(cols, keyed, Some(Text(cloud.value))) && Column(cols, plain, None)
    else Column(cols, plain, Some(Lookup(map[fallback := value]))) && Column(cols, keyed, None)
  }

  function OwnerOf(t: Option<CapTenant>): Option<Option<string>> { if t.Some? then Some(t.value.owner) else None }
  function CostCenterOf(t: Option<CapTenant>): Option<Option<string>> { if t.Some? then Some(t.value.costCenter) else None }

  /** What the steps of a create write, column by column. */
  ghost predicate AsAsked(
    cols: Cols, dc: string, region: string, project: string, flavor: string, price: Option<Value>,
    tenant: Option<CapTenant>, cloud: Option<Cloud>, tags: seq<Tag>, refs: set<string>)
  {
    && Column(cols, "dc", Some(Lookup(map["name" := dc])))
    && Column(cols, "cloud_resource_project_id", if cloud.Some? then Some(Text(cloud.value.id)) else None)
    && Column(cols, "tenant", Some(Lookup(map["tenant_code" := project])))
    && Ladder(cols, "owner", "owner_id", OwnerOf(tenant), tags, refs, None, "name", "example-team")
    && Ladder(cols, "responsible", "responsible_id", OwnerOf(tenant), tags, refs,
              if cloud.Some? then cloud.value.responsible else None, "name", "example-team")
    && Column(cols, "flavor", Some(Lookup(map["name" := flavor, "region_code" := region])))
    && Column(cols, "server_monthly_payment", price)
    && Ladder(cols, "cost_center", "cost_center_id", CostCenterOf(tenant), tags, refs,
              if cloud.Some? then cloud.value.costCenter else None, "cc", "CC00000")
    && cols.Keys <= STEP_COLUMNS
  }

  /** The step that writes a column. */
  function Home(column: string): string {
    match column
    case "cloud_resource_project_id" => "cloud_resource_project"
    case "owner_id" => "owner"
    case "responsible_id" => "responsible"
    case "cost_center_id" => "cost_center"
    case _ => column
  }

  function PartOf(ctx: Context, refs: set<string>, name: string): Cols {
    match Resolve(ctx, refs, name)
    case None => map[]
    case Some(mutation) => mutation
  }

  function Parts(ctx: Context, refs: set<string>, names: seq<string>): Cols {
    if names == [] then map[]
    else Parts(ctx, refs, names[..|names| - 1]) + PartOf(ctx, refs, names[|names| - 1])
  }

  lemma {:induction false} MergeConcat(a: seq<FieldWrite>, b: seq<FieldWrite>)
    ensures Merge(a + b) == Merge(a) + Merge(b)
  {
    if b == [] {
      assert a + b == a;
    } else {
      var front, last := b[..|b| - 1], b[|b| - 1];
      assert (a + b)[..|a + b| - 1] == a + front;
      MergeConcat(a, front);
    }
  }

  lemma {:induction false} StepsMerged(ctx: Context, refs: set<string>, names: seq<string>)
    ensures Merge(StepWrites(ctx, refs, names)) == Parts(ctx, refs, names)
  {
    if names != [] {
      var front, last := names[..|names| - 1], names[|names| - 1];
      StepsMerged(ctx, refs, front);
      hide Resolve;
      MergeConcat(StepWrites(ctx, refs, front), StepWrite(ctx, refs, last));
      var one := StepWrite(ctx, refs, last);
      if one != [] { assert one[..|one| - 1] == [] && Merge([]) == map[]; }
    }
  }

  lemma OwnerLadder(ctx: Context, refs: set<string>)
    ensures
      var cols := ResolveOwner(ctx, refs);
      && cols.Keys <= {"owner", "owner_id"}
      && Ladder(cols, "owner", "owner_id", OwnerOf(ctx.capTenant), ctx.tags, refs, None, "name", "example-team")
  {
    FieldSays(ctx.tags, refs, "owner");
    hide TagMutation, LastSays, Filter, Named;
  }

  lemma ResponsibleLadder(ctx: Context, refs: set<string>)
    ensures
      var cols, cloud := ResolveResponsible(ctx, refs), if ctx.cloud.Some? then ctx.cloud.value.responsible else None;
      && cols.Keys <= {"responsible", "responsible_id"}
      && Ladder(cols, "responsible", "responsible_id", OwnerOf(ctx.capTenant), ctx.tags, refs, cloud, "name", "example-team")
  {
    FieldSays(ctx.tags, refs, "responsible");
    hide TagMutation, LastSays, Filter, Named;
  }

  lemma CostCenterLadder(ctx: Context, refs: set<string>)
    ensures
      var cols, cloud := ResolveCostCenter(ctx, refs), if ctx.cloud.Some? then ctx.cloud.value.costCenter else None;
      && cols.Keys <= {"cost_center", "cost_center_id"}
      && Ladder(cols, "cost_center", "cost_center_id", CostCenterOf(ctx.capTenant), ctx.tags, refs, cloud, "cc", "CC00000")
  {
    hide Says, StartsWith, Filter, Named, TagMutation;
    FieldSays(ctx.tags, refs, "cost_center");
    hide TagMutation, LastSays, Filter, Named;
  }

  /** Every column a step writes is its own. */
  lemma OwnColumns(ctx: Context, refs: set<string>, name: string)
    ensures forall c :: c in PartOf(ctx, refs, name) ==> Home(c) == name && c in STEP_COLUMNS
  {
    OwnerLadder(ctx, refs);
    ResponsibleLadder(ctx, refs);
    CostCenterLadder(ctx, refs);
    hide ResolveOwner, ResolveResponsible, ResolveCostCenter, Ladder;
    if name !in STEP_NAMES { NoStepNamed(ctx, refs, name); }
  }

  lemma NoStepNamed(ctx: Context, refs: set<string>, name: string)
    requires name !in STEP_NAMES
    ensures Resolve(ctx, refs, name).None?
  {
    hide ResolveOwner, ResolveResponsible, ResolveCostCenter;
    assert STEP_NAMES[0] == "dc" && STEP_NAMES[1] == "cloud_resource_project" && STEP_NAMES[2] == "tenant"
        && STEP_NAMES[3] == "owner" && STEP_NAMES[4] == "responsible" && STEP_NAMES[5] == "flavor"
        && STEP_NAMES[6] == "server_monthly_payment" && STEP_NAMES[7] == "cost_center";
  }

  /** Two rows agree in this column. */
  ghost predicate SameIn(a: Cols, b: Cols, c: string) { (c in a <==> c in b) && (c in a && c in b ==> a[c] == b[c]) }

  lemma {:induction false} PartsIn(ctx: Context, refs: set<string>, names: seq<string>, c: string)
    ensures SameIn(Parts(ctx, refs, names), if Home(c) in names then PartOf(ctx, refs, Home(c)) else map[], c)
  {
    hide Home, PartOf;
    if names != [] {
      var front, last := names[..|names| - 1], names[|names| - 1];
      PartsIn(ctx, refs, front, c);
      OwnColumns(ctx, refs, last);
      assert forall x :: x in names <==> x in front || x == last;
    }
  }

  lemma InStep(ctx: Context, refs: set<string>, c: string, name: string)
    requires name in STEP_NAMES && Home(c) == name
    ensures SameIn(Parts(ctx, refs, STEP_NAMES), PartOf(ctx, refs, name), c)
  {
    hide Parts, PartOf, Home;
    PartsIn(ctx, refs, STEP_NAMES, c);
  }

  lemma SameLadder(
    a: Cols, b: Cols, plain: string, keyed: string, tenant: Option<Option<string>>, tags: seq<Tag>, refs: set<string>,
    cloud: Option<string>, fallback: string, value: string)
    requires SameIn(a, b, plain) && SameIn(a, b, keyed) && Ladder(b, plain, keyed, tenant, tags, refs, cloud, fallback, value)
    ensures Ladder(a, plain, keyed, tenant, tags, refs, cloud, fallback, value)
  {
    hide Says, LastOf, Named;
  }

  lemma SmallSteps(ctx: Context, refs: set<string>)
    ensures PartOf(ctx, refs, "dc") == map["dc" := Lookup(map["name" := ctx.dcName])]
    ensures PartOf(ctx, refs, "tenant") == map["tenant" := Lookup(map["tenant_code" := ctx.project])]
    ensures PartOf(ctx, refs, "flavor") == map["flavor" := Lookup(map["name" := ctx.flavor, "region_code" := ctx.region])]
    ensures PartOf(ctx, refs, "cloud_resource_project") ==
      if ctx.cloud.Some? then map["cloud_resource_project_id" := Text(ctx.cloud.value.id)] else map[]
    ensures PartOf(ctx, refs, "server_monthly_payment") ==
      if ctx.price.Some? then map["server_monthly_payment" := ctx.price.value] else map[]
    ensures PartOf(ctx, refs, "owner") == ResolveOwner(ctx, refs)
    ensures PartOf(ctx, refs, "responsible") == ResolveResponsible(ctx, refs)
    ensures PartOf(ctx, refs, "cost_center") == ResolveCostCenter(ctx, refs)
  {
    hide ResolveOwner, ResolveResponsible, ResolveCostCenter;
  }

  lemma StepNamesAre()
    ensures forall name :: name in STEP_NAMES <==>
      name in {"dc", "cloud_resource_project", "tenant", "owner", "responsible", "flavor", "server_monthly_payment", "cost_center"}
  {
    assert STEP_NAMES[0] == "dc" && STEP_NAMES[1] == "cloud_resource_project" && STEP_NAMES[2] == "tenant"
        && STEP_NAMES[3] == "owner" && STEP_NAMES[4] == "responsible" && STEP_NAMES[5] == "flavor"
        && STEP_NAMES[6] == "server_monthly_payment" && STEP_NAMES[7] == "cost_center";
  }

  lemma PlainSteps(ctx: Context, refs: set<string>)
    ensures
      var cols := Parts(ctx, refs, STEP_NAMES);
      && Column(cols, "dc", Some(Lookup(map["name" := ctx.dcName])))
      && Column(cols, "cloud_resource_project_id", if ctx.cloud.Some? then Some(Text(ctx.cloud.value.id)) else None)
      && Column(cols, "tenant", Some(Lookup(map["tenant_code" := ctx.project])))
      && Column(cols, "flavor", Some(Lookup(map["name" := ctx.flavor, "region_code" := ctx.region])))
      && Column(cols, "server_monthly_payment", ctx.price)
  {
    StepNamesAre();
    SmallSteps(ctx, refs);
    hide PartOf, Parts, ResolveOwner, ResolveResponsible, ResolveCostCenter;
    InStep(ctx, refs, "dc", "dc");
    InStep(ctx, refs, "cloud_resource_project_id", "cloud_resource_project");
    InStep(ctx, refs, "tenant", "tenant");
    InStep(ctx, refs, "flavor", "flavor");
    InStep(ctx, refs, "server_monthly_payment", "server_monthly_payment");
  }

  lemma LadderSteps(ctx: Context, refs: set<string>)
    ensures
      var cols := Parts(ctx, refs, STEP_NAMES);
      && Ladder(cols, "owner", "owner_id", OwnerOf(ctx.capTenant), ctx.tags, refs, None, "name", "example-team")
      && Ladder(cols, "responsible", "responsible_id", OwnerOf(ctx.capTenant), ctx.tags, refs,
                if ctx.cloud.Some? then ctx.cloud.value.responsible else None, "name", "example-team")
      && Ladder(cols, "cost_center", "cost_center_id", CostCenterOf(ctx.capTenant), ctx.tags, refs,
                if ctx.cloud.Some? then ctx.cloud.value.costCenter else None, "cc", "CC00000")
  {
    StepNamesAre();
    SmallSteps(ctx, refs);
    OwnerLadder(ctx, refs);
    ResponsibleLadder(ctx, refs);
    CostCenterLadder(ctx, refs);
    hide PartOf, Parts, ResolveOwner, ResolveResponsible, ResolveCostCenter, Ladder, SameIn, OwnerOf, CostCenterOf;
    var cols := Parts(ctx, refs, STEP_NAMES);
    InStep(ctx, refs, "owner", "owner");
    InStep(ctx, refs, "owner_id", "owner");
    SameLadder(cols, ResolveOwner(ctx, refs), "owner", "owner_id", OwnerOf(ctx.capTenant), ctx.tags, refs, None, "name", "example-team");
    InStep(ctx, refs, "responsible", "responsible");
    InStep(ctx, refs, "responsible_id", "responsible");
    SameLadder(cols, ResolveResponsible(ctx, refs), "responsible", "responsible_id", OwnerOf(ctx.capTenant), ctx.tags, refs,
               if ctx.cloud.Some? then ctx.cloud.value.responsible else None, "name", "example-team");
    InStep(ctx, refs, "cost_center", "cost_center");
    InStep(ctx, refs, "cost_center_id", "cost_center");
    SameLadder(cols, ResolveCostCenter(ctx, refs), "cost_center", "cost_center_id", CostCenterOf(ctx.capTenant), ctx.tags, refs,
               if ctx.cloud.Some? then ctx.cloud.value.costCenter else None, "cc", "CC00000");
  }

  lemma {:induction false} PartsWithin(ctx: Context, refs: set<string>, names: seq<string>)
    ensures Parts(ctx, refs, names).Keys <= STEP_COLUMNS
  {
    hide PartOf;
    if names != [] {
      PartsWithin(ctx, refs, names[..|names| - 1]);
      OwnColumns(ctx, refs, names[|names| - 1]);
    }
  }

  /** The steps write what the message, its cap tenant and its cloud project ask for, and nothing else. */
  lemma StepsAsAsked(ctx: Context, refs: set<string>)
    ensures AsAsked(
      Merge(StepWrites(ctx, refs, STEP_NAMES)), ctx.dcName, ctx.region, ctx.project, ctx.flavor, ctx.price,
      ctx.capTenant, ctx.cloud, ctx.tags, refs)
  {
    hide StepWrites, Merge, Parts, Ladder, Column, OwnerOf, CostCenterOf;
    StepsMerged(ctx, refs, STEP_NAMES);
    PlainSteps(ctx, refs);
    LadderSteps(ctx, refs);
    PartsWithin(ctx, refs, STEP_NAMES);
  }

  // -- the leftovers ------------------------------------------------------------------------------------

  /** A column some tag names and no step writes. */
  ghost predicate LeftOver(tags: seq<Tag>, column: string) { '.' !in column && column !in STEP_NAMES && Named(tags, column) }

  /** What the tags that no step consumes write: each its own column, the last of a name deciding. */
  ghost predicate AsTagged(cols: Cols, tags: seq<Tag>, refs: set<string>) {
    && (forall c :: c in cols ==> LeftOver(tags, c))
    && (forall c :: LeftOver(tags, c) ==> c in cols && LastSays(cols, tags, refs, c))
  }

  function LeftCols(tags: seq<Tag>, refs: set<string>): Cols { Merge(Map(Filter(tags, Unhandled(STEP_NAMES)), TagWrite(refs))) }

  lemma LeftColsOne(front: seq<Tag>, t: Tag, refs: set<string>)
    ensures LeftCols(front + [t], refs) == LeftCols(front, refs) +
      if Head(t.key) in STEP_NAMES then map[] else map[TagColumn(t.key) := TagValue(t, refs)]
  {
    hide Merge, Filter;
    var kept := Filter(front, Unhandled(STEP_NAMES));
    FilterSnoc(front, t, Unhandled(STEP_NAMES));
    assert kept + [] == kept;
    MapConcat(kept, [t], TagWrite(refs));
    MapOne(t, TagWrite(refs));
    assert [t][..0] == [];
    assert TagMutation([t], refs) == map[TagColumn(t.key) := TagValue(t, refs)];
    hide TagMutation, TagColumn, TagValue, Head, Filter, Map;
    MergeOne(Map(kept, TagWrite(refs)), TagWrite(refs)(t));
  }

  lemma NamedOne(front: seq<Tag>, t: Tag, c: string)
    requires '.' !in c
    ensures Named(front + [t], c) <==> Named(front, c) || Head(t.key) == c
    ensures Of(t.key, c) <==> Head(t.key) == c
  {
    HeadOf(t.key, c);
    hide Of, Head;
    assert forall x :: x in front + [t] <==> x in front || x == t;
  }

  lemma {:induction false} LeftoversAsTagged(tags: seq<Tag>, refs: set<string>)
    ensures AsTagged(LeftCols(tags, refs), tags, refs)
  {
    hide Head, Filter, TagWrite, LookupKey, Unhandled;
    if tags != [] {
      var front, t := tags[..|tags| - 1], tags[|tags| - 1];
      var before, cols := LeftCols(front, refs), LeftCols(tags, refs);
      LeftoversAsTagged(front, refs);
      assert tags == front + [t];
      LeftColsOne(front, t, refs);
      TagSays(t, refs);
      hide LeftCols, LastSays, TagValue, Head, TagColumn, Named, Of;
      forall c ensures (c in cols ==> LeftOver(tags, c)) && (LeftOver(tags, c) ==> c in cols && LastSays(cols, tags, refs, c)) {
        if '.' !in c {
          NamedOne(front, t, c);
          if Head(t.key) == c && c !in STEP_NAMES {
            LastSaysNew(front, t, cols, refs);
          } else if LeftOver(front, c) {
            LastSaysOn(front, t, before, cols, refs, c);
          }
        }
      }
    }
  }

  /** A create's batch: what its steps are asked for, overwritten by what the leftover tags say. */
  lemma BatchAsAsked(ctx: Context, refs: set<string>) returns (steps: Cols, left: Cols)
    ensures Merge(CreateWrites(ctx, refs)) == steps + left && AsTagged(left, ctx.tags, refs)
    ensures AsAsked(
      steps, ctx.dcName, ctx.region, ctx.project, ctx.flavor, ctx.price, ctx.capTenant, ctx.cloud, ctx.tags, refs)
  {
    hide AsAsked, AsTagged, StepWrites, Merge, Map;
    steps, left := Merge(StepWrites(ctx, refs, STEP_NAMES)), LeftCols(ctx.tags, refs);
    MergeConcat(StepWrites(ctx, refs, STEP_NAMES), Map(Leftovers(ctx), TagWrite(refs)));
    StepsAsAsked(ctx, refs);
    LeftoversAsTagged(ctx.tags, refs);
  }
}
