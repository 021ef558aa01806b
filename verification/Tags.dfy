/** The `cmdb.*` tags of a create message and the server field writes they turn into. */
module Tags {
  import opened Basics
  import opened Cmdb

  datatype Tag = Tag(key: string, value: string)

  const CMDB_PREFIX := "cmdb."
  const K8S_NODE_TAG := "provisioner.example-org/clusterID"
  const CAP_TENANT_TAG := "cap_tenant.name"
  const WHITELIST := ["state", "responsible", "owner", "role", "project", "task"]
  const DEFAULT_RESPONSIBLE := "example-team"
  const DEFAULT_COST_CENTER := "CC00000"
  const READY_STATE := "ready"
  const ERROR_STATE := "error"
  const IMPORTER := "[K8S]instance_handler_v2"

  /** What one create message resolved to. `cloud` is `None` where the source keeps an empty dict. */
  datatype Context = Context(
    hostname: string, uuid: string, dcName: string, region: string, project: string, flavor: string,
    price: Option<Value>, tags: seq<Tag>, cloud: Option<Cloud>, capTenant: Option<CapTenant>, readyState: string)

  // -- strings -----------------------------------------------------------------------

  predicate StartsWith(s: string, p: string) { |p| <= |s| && s[..|p|] == p }

  /** The position of the first dot, or the length. */
  function Dot(s: string): (k: nat)
    ensures k <= |s| && '.' !in s[..k] && (k < |s| ==> s[k] == '.')
  {
    if s == [] || s[0] == '.' then 0
    else
      var k := Dot(s[1..]);
      assert s[..1 + k] == [s[0]] + s[1..][..k];
      1 + k
  }

  /** `key.split('.', 1)[0]` */
  function Head(key: string): string { key[..Dot(key)] }

  /** `key.split('.', 1)[1]`, for a dotted key. */
  function Tail(key: string): string
    requires '.' in key
  {
    assert Dot(key) < |key| by { assert key[..|key|] == key; }
    key[Dot(key) + 1..]
  }

  // -- filtering ------------------------------------------------------------------------

  function HasKey(key: string): Tag -> bool { (t: Tag) => t.key == key }
  function LacksKey(key: string): Tag -> bool { (t: Tag) => t.key != key }
  function Prefixed(p: string): Tag -> bool { (t: Tag) => StartsWith(t.key, p) }
  function NotPrefixed(p: string): Tag -> bool { (t: Tag) => !StartsWith(t.key, p) }
  function Whitelisted(): Tag -> bool { (t: Tag) => Head(t.key) in WHITELIST }
  function BelongsTo(name: string): Tag -> bool { (t: Tag) => t.key == name || StartsWith(t.key, name + ".") }
  function Unhandled(names: seq<string>): Tag -> bool { (t: Tag) => Head(t.key) !in names }
  function Stripped(): Tag -> Tag { (t: Tag) => Tag(if |t.key| >= 5 then t.key[5..] else [], t.value) }

  /** The message's cmdb tags without their prefix. */
  function CmdbTags(metadata: seq<Tag>): seq<Tag> { Map(Filter(metadata, Prefixed(CMDB_PREFIX)), Stripped()) }

  function ReadyState(tags: seq<Tag>): string {
    match First(tags, HasKey("state"))
    case Some(t) => t.value
    case None => READY_STATE
  }

  function WithoutState(tags: seq<Tag>): seq<Tag> {
    Filter(Filter(tags, LacksKey("state")), NotPrefixed("state."))
  }

  /** The tags a message's steps and leftovers work on. */
  function KeptTags(tags: seq<Tag>, trusted: bool): seq<Tag> {
    var free := Filter(WithoutState(tags), LacksKey(CAP_TENANT_TAG));
    if trusted then free else Filter(free, Whitelisted())
  }

  // -- mutations ------------------------------------------------------------------------

  /** The column a tag writes and the value it writes there. */
  function TagColumn(key: string): string { if '.' in key then Head(key) else key }

  function DefaultKey(key: string): string {
    if key == "tenant" then "tenant"
    else if key == "rails" then "code"
    else if key == "cost_center" then "cc"
    else "name"
  }

  function TagValue(tag: Tag, refs: set<string>): Value {
    if '.' in tag.key then Lookup(map[Tail(tag.key) := tag.value])
    else if tag.key != "" && tag.key !in refs then Text(tag.value)
    else Lookup(map[DefaultKey(tag.key) := tag.value])
  }

  function TagMutation(tags: seq<Tag>, refs: set<string>): Cols {
    if tags == [] then map[]
    else
      var last := tags[|tags| - 1];
      TagMutation(tags[..|tags| - 1], refs)[TagColumn(last.key) := TagValue(last, refs)]
  }

  // -- the steps -----------------------------------------------------------------------------

  const STEP_NAMES :=
    ["dc", "cloud_resource_project", "tenant", "owner", "responsible", "flavor", "server_monthly_payment", "cost_center"]

  function TagFields(ctx: Context, name: string): seq<Tag> { Filter(ctx.tags, BelongsTo(name)) }

  function Nullable(s: Option<string>): Value { if s.Some? then Text(s.value) else Null }

  predicate Some1(s: Option<string>) { s.Some? && s.value != "" }

  function ResolveOwner(ctx: Context, refs: set<string>): Cols {
    if ctx.capTenant.Some? then map["owner_id" := Nullable(ctx.capTenant.value.owner)]
    else if TagFields(ctx, "owner") != [] then TagMutation(TagFields(ctx, "owner"), refs)
    else map["owner" := Lookup(map["name" := DEFAULT_RESPONSIBLE])]
  }

  function ResolveResponsible(ctx: Context, refs: set<string>): Cols {
    if ctx.capTenant.Some? then map["responsible_id" := Nullable(ctx.capTenant.value.owner)]
    else if TagFields(ctx, "responsible") != [] then TagMutation(TagFields(ctx, "responsible"), refs)
    else if ctx.cloud.Some? && Some1(ctx.cloud.value.responsible) then
      map["responsible_id" := Text(ctx.cloud.value.responsible.value)]
    else map["responsible" := Lookup(map["name" := DEFAULT_RESPONSIBLE])]
  }

  function ResolveCostCenter(ctx: Context, refs: set<string>): Cols {
    if ctx.capTenant.Some? then map["cost_center_id" := Nullable(ctx.capTenant.value.costCenter)]
    else if TagFields(ctx, "cost_center") != [] then TagMutation(TagFields(ctx, "cost_center"), refs)
    else if ctx.cloud.Some? && Some1(ctx.cloud.value.costCenter) then
      map["cost_center_id" := Text(ctx.cloud.value.costCenter.value)]
    else map["cost_center" := Lookup(map["cc" := DEFAULT_COST_CENTER])]
  }

  /** What one step writes; `None` when it has nothing to write. */
  function Resolve(ctx: Context, refs: set<string>, name: string): Option<Cols> {
    match name
    case "dc" => Some(map["dc" := Lookup(map["name" := ctx.dcName])])
    case "cloud_resource_project" =>
      if ctx.cloud.None? then None else Some(map["cloud_resource_project_id" := Text(ctx.cloud.value.id)])
    case "tenant" => Some(map["tenant" := Lookup(map["tenant_code" := ctx.project])])
    case "owner" => Some(ResolveOwner(ctx, refs))
    case "responsible" => Some(ResolveResponsible(ctx, refs))
    case "flavor" => Some(map["flavor" := Lookup(map["name" := ctx.flavor, "region_code" := ctx.region])])
    case "server_monthly_payment" =>
      if ctx.price.None? then None else Some(map["server_monthly_payment" := ctx.price.value])
    case "cost_center" => Some(ResolveCostCenter(ctx, refs))
    case _ => None
  }

  /** One resolved write; `mark` and `listed` say what failing to write it means. */
  datatype FieldWrite = FieldWrite(field: string, mutation: Cols, mark: bool, listed: bool)

  function StepWrite(ctx: Context, refs: set<string>, name: string): seq<FieldWrite> {
    match Resolve(ctx, refs, name)
    case None => []
    case Some(mutation) => [FieldWrite(name, mutation, name != "tenant" && name != "flavor", name != "flavor")]
  }

  function StepWrites(ctx: Context, refs: set<string>, names: seq<string>): seq<FieldWrite> {
    if names == [] then []
    else StepWrites(ctx, refs, names[..|names| - 1]) + StepWrite(ctx, refs, names[|names| - 1])
  }

  function Leftovers(ctx: Context): seq<Tag> { Filter(ctx.tags, Unhandled(STEP_NAMES)) }

  function TagWrite(refs: set<string>): Tag -> FieldWrite {
    (t: Tag) => FieldWrite(t.key, TagMutation([t], refs), true, true)
  }

  /** Every write of one create message, in the order they are written. */
  function CreateWrites(ctx: Context, refs: set<string>): seq<FieldWrite> {
    StepWrites(ctx, refs, STEP_NAMES) + Map(Leftovers(ctx), TagWrite(refs))
  }

  /** One shallow batch: the last write to a key wins. */
  function Merge(writes: seq<FieldWrite>): Cols {
    if writes == [] then map[] else Merge(writes[..|writes| - 1]) + writes[|writes| - 1].mutation
  }

  // -- the source's loops ------------------------------------------------------------------------

  method Tags2CmdbField(data: seq<Tag>, refs: set<string>) returns (transformed: Cols)
    ensures transformed == TagMutation(data, refs)
  {
    transformed := map[];
    for i := 0 to |data|
      invariant transformed == TagMutation(data[..i], refs)
    {
      assert data[..i + 1][..i] == data[..i];
      var key := data[i].key;
      if '.' in key {
        transformed := transformed[Head(key) := Lookup(map[Tail(key) := data[i].value])];
      } else if key != "" && key !in refs {
        transformed := transformed[key := Text(data[i].value)];
      } else {
        transformed := transformed[key := Lookup(map[DefaultKey(key) := data[i].value])];
      }
    }
    assert data[..|data|] == data;
  }

  lemma NoStep(ctx: Context, refs: set<string>)
    ensures StepWrites(ctx, refs, []) == []
  {
  }

  /** What the first `i + 1` names write is what the first `i` write and then the next one, if it resolves. */
  lemma NextStep(ctx: Context, refs: set<string>, names: seq<string>, i: nat)
    requires i < |names|
    ensures StepWrites(ctx, refs, names[..i + 1]) == StepWrites(ctx, refs, names[..i]) + StepWrite(ctx, refs, names[i])
    ensures Resolve(ctx, refs, names[i]).None? ==> StepWrite(ctx, refs, names[i]) == []
  {
    hide Resolve;
    assert names[..i + 1][..i] == names[..i];
  }

  method BuildCreateWrites(ctx: Context, refs: set<string>) returns (writes: seq<FieldWrite>)
    ensures writes == CreateWrites(ctx, refs)
  {
    hide Resolve, StepWrite, StepWrites, Map, Leftovers, TagMutation;
    writes := [];
    NoStep(ctx, refs);
    for i := 0 to |STEP_NAMES|
      invariant writes == StepWrites(ctx, refs, STEP_NAMES[..i])
    {
      NextStep(ctx, refs, STEP_NAMES, i);
      var mutation := Resolve(ctx, refs, STEP_NAMES[i]);
      if mutation.Some? {
        writes := writes + StepWrite(ctx, refs, STEP_NAMES[i]);
      }
    }
    assert STEP_NAMES[..|STEP_NAMES|] == STEP_NAMES;
    var left := Leftovers(ctx);
    ghost var steps := writes;
    for i := 0 to |left|
      invariant writes == steps + Map(left, TagWrite(refs))[..i]
    {
      var mutation := Tags2CmdbField([left[i]], refs);
      writes := writes + [FieldWrite(left[i].key, mutation, true, true)];
    }
  }

  method MergeWrites(writes: seq<FieldWrite>) returns (batch: Cols)
    ensures batch == Merge(writes)
  {
    batch := map[];
    for i := 0 to |writes|
      invariant batch == Merge(writes[..i])
    {
      assert writes[..i + 1][..i] == writes[..i];
      batch := batch + writes[i].mutation;
    }
    assert writes[..|writes|] == writes;
  }
}
