/** Tags fall to exactly one step or to the leftovers, and a batch agrees with its replay. */
module TagsProofs {
  import opened Basics
  import opened Cmdb
  import opened Tags

  // -- which step a tag belongs to ---------------------------------------------------------

  lemma {:induction false} DotOfConcat(a: string, b: string)
    requires '.' !in a
    ensures Dot(a + b) == |a| + Dot(b)
  {
    if a == [] {
      assert a + b == b;
    } else {
      assert a[0] in a && forall c :: c in a[1..] ==> c in a;
      assert (a + b)[1..] == a[1..] + b;
      DotOfConcat(a[1..], b);
    }
  }

  /** The exact-key-or-prefix test is the same as comparing the part before the first dot. */
  lemma BelongsIsHead(t: Tag, name: string)
    requires '.' !in name
    ensures BelongsTo(name)(t) <==> Head(t.key) == name
  {
    var key := t.key;
    if StartsWith(key, name + ".") {
      var rest := key[|name| + 1..];
      assert key == name + ("." + rest);
      assert Dot("." + rest) == 0;
      DotOfConcat(name, "." + rest);
      assert Head(key) == name;
    } else if key == name {
      assert key == name + [];
      DotOfConcat(name, []);
    }
    if Head(key) == name && key != name {
      assert Dot(key) < |key|;
      assert key[..|name| + 1] == name + ".";
    }
  }

  lemma StepNamesPlain()
    ensures forall i :: 0 <= i < |STEP_NAMES| ==> '.' !in STEP_NAMES[i]
    ensures Distinct(STEP_NAMES)
  {
    assert STEP_NAMES[0] == "dc" && STEP_NAMES[1] == "cloud_resource_project" && STEP_NAMES[2] == "tenant"
        && STEP_NAMES[3] == "owner" && STEP_NAMES[4] == "responsible" && STEP_NAMES[5] == "flavor"
        && STEP_NAMES[6] == "server_monthly_payment" && STEP_NAMES[7] == "cost_center";
  }

  /** Some step consumes this tag. */
  ghost predicate Consumed(ctx: Context, t: Tag) {
    exists i :: 0 <= i < |STEP_NAMES| && t in TagFields(ctx, STEP_NAMES[i])
  }

  /** Each tag is consumed by exactly one step or left over, never both and never neither. */
  lemma TagsPartition(ctx: Context, t: Tag)
    requires t in ctx.tags
    ensures Consumed(ctx, t) <==> t !in Leftovers(ctx)
    ensures forall i, j | 0 <= i < |STEP_NAMES| && 0 <= j < |STEP_NAMES| ::
      t in TagFields(ctx, STEP_NAMES[i]) && t in TagFields(ctx, STEP_NAMES[j]) ==> i == j
  {
    StepNamesPlain();
    forall i | 0 <= i < |STEP_NAMES|
      ensures t in TagFields(ctx, STEP_NAMES[i]) <==> Head(t.key) == STEP_NAMES[i]
    {
      BelongsIsHead(t, STEP_NAMES[i]);
    }
    hide Head, BelongsTo;
    assert Head(t.key) in STEP_NAMES <==> exists i :: 0 <= i < |STEP_NAMES| && STEP_NAMES[i] == Head(t.key);
  }

  // -- what a write may touch -----------------------------------------------------------------

  ghost predicate OneKey(m: Cols, key: string) { m.Keys == {key} }

  lemma {:induction false} TagsOneKey(tags: seq<Tag>, refs: set<string>, key: string)
    requires tags != [] && forall t :: t in tags ==> TagColumn(t.key) == key
    ensures OneKey(TagMutation(tags, refs), key)
  {
    var front, last := tags[..|tags| - 1], tags[|tags| - 1];
    assert last in tags;
    if front == [] {
      assert TagMutation(front, refs) == map[];
    } else {
      TagsOneKey(front, refs, key);
    }
  }

  lemma StepTagsOneKey(ctx: Context, refs: set<string>, name: string)
    requires '.' !in name && TagFields(ctx, name) != []
    ensures OneKey(TagMutation(TagFields(ctx, name), refs), name)
  {
    forall t | t in TagFields(ctx, name) ensures TagColumn(t.key) == name {
      BelongsIsHead(t, name);
      assert StartsWith(t.key, name + ".") ==> t.key[|name|] == '.';
    }
    TagsOneKey(TagFields(ctx, name), refs, name);
  }

  /** The columns the steps may write. */
  const STEP_COLUMNS := {
    "dc", "cloud_resource_project_id", "tenant", "owner", "owner_id", "responsible", "responsible_id", "flavor",
    "server_monthly_payment", "cost_center", "cost_center_id"}

  ghost predicate WritesOne(w: FieldWrite, columns: set<string>) {
    exists key :: key in columns && OneKey(w.mutation, key)
  }

  lemma ResolveOneKey(ctx: Context, refs: set<string>, name: string)
    requires name in STEP_NAMES && Resolve(ctx, refs, name).Some?
    ensures exists key :: key in STEP_COLUMNS && OneKey(Resolve(ctx, refs, name).value, key)
  {
    hide TagMutation, TagFields;
    var m := Resolve(ctx, refs, name).value;
    match name
    case "dc" => assert OneKey(m, "dc");
    case "cloud_resource_project" => assert OneKey(m, "cloud_resource_project_id");
    case "tenant" => assert OneKey(m, "tenant");
    case "owner" =>
      if ctx.capTenant.Some? {
        assert OneKey(m, "owner_id");
      } else {
        if TagFields(ctx, "owner") != [] { StepTagsOneKey(ctx, refs, "owner"); }
        assert OneKey(m, "owner");
      }
    case "responsible" =>
      if ctx.capTenant.None? && TagFields(ctx, "responsible") != [] { StepTagsOneKey(ctx, refs, "responsible"); }
      assert OneKey(m, "responsible") || OneKey(m, "responsible_id");
    case "flavor" => assert OneKey(m, "flavor");
    case "server_monthly_payment" => assert OneKey(m, "server_monthly_payment");
    case "cost_center" =>
      if ctx.capTenant.None? && TagFields(ctx, "cost_center") != [] { StepTagsOneKey(ctx, refs, "cost_center"); }
      assert OneKey(m, "cost_center") || OneKey(m, "cost_center_id");
    case _ =>
  }

  lemma {:induction false} StepsOneKey(ctx: Context, refs: set<string>, names: seq<string>)
    requires forall name :: name in names ==> name in STEP_NAMES
    ensures forall w :: w in StepWrites(ctx, refs, names) ==> WritesOne(w, STEP_COLUMNS)
  {
    if names != [] {
      var front, last := names[..|names| - 1], names[|names| - 1];
      assert last in names;
      StepsOneKey(ctx, refs, front);
      if Resolve(ctx, refs, last).Some? { ResolveOneKey(ctx, refs, last); }
      hide Resolve;
    }
  }

  ghost function LeftColumns(ctx: Context): set<string> { set t | t in Leftovers(ctx) :: TagColumn(t.key) }

  lemma LeftoversOneKey(ctx: Context, refs: set<string>)
    ensures forall w :: w in Map(Leftovers(ctx), TagWrite(refs)) ==> WritesOne(w, LeftColumns(ctx))
  {
    var left := Leftovers(ctx);
    var writes := Map(left, TagWrite(refs));
    forall w | w in writes ensures WritesOne(w, LeftColumns(ctx)) {
      var i :| 0 <= i < |writes| && writes[i] == w;
      assert w == TagWrite(refs)(left[i]) && left[i] in left;
      TagsOneKey([left[i]], refs, TagColumn(left[i].key));
    }
  }

  /** Every field write of a create names exactly one column: a step column, or a leftover tag's own. */
  lemma CreateWritesOneKey(ctx: Context, refs: set<string>)
    ensures forall w :: w in CreateWrites(ctx, refs) ==> WritesOne(w, STEP_COLUMNS + LeftColumns(ctx))
  {
    StepsOneKey(ctx, refs, STEP_NAMES);
    LeftoversOneKey(ctx, refs);
    hide StepWrites, Leftovers, TagWrite;
    forall w | w in CreateWrites(ctx, refs) ensures WritesOne(w, STEP_COLUMNS + LeftColumns(ctx)) {
      if WritesOne(w, STEP_COLUMNS) {
        var key :| key in STEP_COLUMNS && OneKey(w.mutation, key);
        assert key in STEP_COLUMNS + LeftColumns(ctx);
      } else {
        var key :| key in LeftColumns(ctx) && OneKey(w.mutation, key);
        assert key in STEP_COLUMNS + LeftColumns(ctx);
      }
    }
  }

  // -- what the filtering guarantees ---------------------------------------------------------------

  lemma ColumnIsHead(key: string)
    ensures TagColumn(key) == Head(key)
  {
    if '.' !in key {
      assert key[..|key|] == key;
      assert forall k :: 0 <= k < |key| ==> key[k] in key;
    }
  }

  /** No tag that survives filtering writes `state`; in the whitelisted case none is left but three columns. */
  lemma KeptTagsColumns(tags: seq<Tag>, trusted: bool, t: Tag)
    requires t in KeptTags(tags, trusted)
    ensures TagColumn(t.key) != "state"
    ensures !trusted ==> TagColumn(t.key) in WHITELIST
  {
    ColumnIsHead(t.key);
    BelongsIsHead(t, "state");
    assert "state" + "." == "state.";
  }

  lemma LeftColumnsKept(ctx: Context, tags: seq<Tag>, trusted: bool)
    requires ctx.tags == KeptTags(tags, trusted)
    ensures "state" !in LeftColumns(ctx)
    ensures !trusted ==> LeftColumns(ctx) <= {"role", "project", "task"}
  {
    forall c | c in LeftColumns(ctx) ensures c != "state" && (!trusted ==> c in {"role", "project", "task"}) {
      var t :| t in Leftovers(ctx) && TagColumn(t.key) == c;
      KeptTagsColumns(tags, trusted, t);
      ColumnIsHead(t.key);
      hide KeptTags;
      if !trusted { WhitelistWithoutSteps(c); }
    }
  }

  lemma WhitelistWithoutSteps(c: string)
    requires c in WHITELIST && c !in STEP_NAMES && c != "state"
    ensures c in {"role", "project", "task"}
  {
    assert STEP_NAMES[3] == "owner" && STEP_NAMES[4] == "responsible";
  }

  lemma StepColumnsPlain()
    ensures "state" !in STEP_COLUMNS && "hostname" !in STEP_COLUMNS && "uuid" !in STEP_COLUMNS
    ensures {"role", "project", "task"} !! STEP_COLUMNS
    ensures "hostname" !in {"role", "project", "task"} && "uuid" !in {"role", "project", "task"}
  {
  }

  lemma KeptOut(writes: seq<FieldWrite>, columns: set<string>, key: string)
    requires forall w :: w in writes ==> WritesOne(w, columns)
    requires key !in columns
    ensures forall w :: w in writes ==> key !in w.mutation
  {
    forall w | w in writes ensures key !in w.mutation {
      var k :| k in columns && OneKey(w.mutation, k);
      assert w.mutation.Keys == {k};
    }
  }

  /** No write ever targets `state`; a whitelisted leftover shares no column with a step, nor a key column. */
  lemma WritesKeepOut(ctx: Context, refs: set<string>, tags: seq<Tag>, trusted: bool)
    requires ctx.tags == KeptTags(tags, trusted)
    ensures forall w :: w in CreateWrites(ctx, refs) ==> "state" !in w.mutation
    ensures !trusted ==> LeftColumns(ctx) !! STEP_COLUMNS
    ensures !trusted ==> forall w :: w in CreateWrites(ctx, refs) ==> "hostname" !in w.mutation && "uuid" !in w.mutation
  {
    hide CreateWrites, LeftColumns;
    CreateWritesOneKey(ctx, refs);
    LeftColumnsKept(ctx, tags, trusted);
    StepColumnsPlain();
    KeptOut(CreateWrites(ctx, refs), STEP_COLUMNS + LeftColumns(ctx), "state");
    if !trusted {
      KeptOut(CreateWrites(ctx, refs), STEP_COLUMNS + LeftColumns(ctx), "hostname");
      KeptOut(CreateWrites(ctx, refs), STEP_COLUMNS + LeftColumns(ctx), "uuid");
    }
  }

  /** The batch is never empty: the datacenter is always written. */
  lemma BatchNeverEmpty(ctx: Context, refs: set<string>)
    ensures "dc" in Merge(CreateWrites(ctx, refs))
  {
    var first := FieldWrite("dc", map["dc" := Lookup(map["name" := ctx.dcName])], true, true);
    StepsStartWithDc(ctx, refs, STEP_NAMES);
    assert STEP_NAMES[0] == "dc";
    assert CreateWrites(ctx, refs)[0] == first;
    MergeKeeps(CreateWrites(ctx, refs), 0, "dc");
  }

  lemma {:induction false} StepsStartWithDc(ctx: Context, refs: set<string>, names: seq<string>)
    requires names != [] && names[0] == "dc"
    ensures StepWrites(ctx, refs, names) != []
    ensures StepWrites(ctx, refs, names)[0] == FieldWrite("dc", map["dc" := Lookup(map["name" := ctx.dcName])], true, true)
  {
    if |names| == 1 {
      assert StepWrites(ctx, refs, names[..0]) == [];
    } else {
      StepsStartWithDc(ctx, refs, names[..|names| - 1]);
    }
  }

  lemma {:induction false} MergeKeeps(writes: seq<FieldWrite>, i: nat, key: string)
    requires i < |writes| && key in writes[i].mutation
    ensures key in Merge(writes)
  {
    if i < |writes| - 1 { MergeKeeps(writes[..|writes| - 1], i, key); }
  }

  // -- batch and replay --------------------------------------------------------------------------------

  /** The CMDB takes this write. */
  ghost predicate Taken(w: FieldWrite, refused: set<(string, Value)>) {
    forall k :: k in w.mutation ==> (k, w.mutation[k]) !in refused
  }

  /** One update per write, in order; a refused one changes nothing. */
  ghost function Replay(cols: Cols, writes: seq<FieldWrite>, refused: set<(string, Value)>): Cols {
    if writes == [] then cols
    else
      var before := Replay(cols, writes[..|writes| - 1], refused);
      if Taken(writes[|writes| - 1], refused) then before + writes[|writes| - 1].mutation else before
  }

  ghost predicate SingleKeys(writes: seq<FieldWrite>) {
    forall w :: w in writes ==> exists key :: OneKey(w.mutation, key)
  }

  lemma {:induction false} MergedAgrees(cols: Cols, writes: seq<FieldWrite>, refused: set<(string, Value)>, key: string)
    requires SingleKeys(writes)
    requires key in Merge(writes) ==> (key, Merge(writes)[key]) !in refused
    ensures key in Merge(writes) ==> key in Replay(cols, writes, refused) && Replay(cols, writes, refused)[key] == Merge(writes)[key]
    ensures key !in Merge(writes) ==> (key in Replay(cols, writes, refused) <==> key in cols)
    ensures key !in Merge(writes) && key in cols ==> Replay(cols, writes, refused)[key] == cols[key]
  {
    if writes != [] {
      var front, last := writes[..|writes| - 1], writes[|writes| - 1];
      assert last in writes && forall w :: w in front ==> w in writes;
      var own :| OneKey(last.mutation, own);
      if key != own {
        assert key !in last.mutation;
        MergedAgrees(cols, front, refused, key);
      } else {
        assert forall k :: k in last.mutation ==> k == own;
        assert Taken(last, refused);
      }
    }
  }

  /**
   When the shallow last-wins batch is accepted, the row equals the one a
   field-by-field replay would produce, even if an overwritten value is invalid.
   */
  lemma BatchIsReplay(cols: Cols, writes: seq<FieldWrite>, refused: set<(string, Value)>)
    requires SingleKeys(writes)
    requires forall k :: k in Merge(writes) ==> (k, Merge(writes)[k]) !in refused
    ensures cols + Merge(writes) == Replay(cols, writes, refused)
  {
    forall k ensures k in cols + Merge(writes) <==> k in Replay(cols, writes, refused) {
      MergedAgrees(cols, writes, refused, k);
    }
    forall k | k in cols + Merge(writes) ensures (cols + Merge(writes))[k] == Replay(cols, writes, refused)[k] {
      MergedAgrees(cols, writes, refused, k);
    }
  }

  ghost function TakenBy(refused: set<(string, Value)>): FieldWrite -> bool { w => Taken(w, refused) }

  lemma MergeOne(writes: seq<FieldWrite>, w: FieldWrite)
    ensures Merge(writes + [w]) == Merge(writes) + w.mutation
  {
    assert (writes + [w])[..|writes|] == writes;
  }

  lemma ReplayOne(cols: Cols, writes: seq<FieldWrite>, w: FieldWrite, refused: set<(string, Value)>)
    ensures Replay(cols, writes + [w], refused)
         == if Taken(w, refused) then Replay(cols, writes, refused) + w.mutation else Replay(cols, writes, refused)
  {
    assert (writes + [w])[..|writes|] == writes;
  }

  lemma MergeLast(cols: Cols, kept: seq<FieldWrite>, last: FieldWrite)
    ensures cols + Merge(kept + [last]) == (cols + Merge(kept)) + last.mutation
  {
    MergeOne(kept, last);
  }

  /** A replay leaves every column at its last accepted write, or as it was. */
  lemma {:induction false} ReplayIsLastAccepted(cols: Cols, writes: seq<FieldWrite>, refused: set<(string, Value)>)
    ensures Replay(cols, writes, refused) == cols + Merge(Filter(writes, TakenBy(refused)))
  {
    if writes == [] {
      assert cols + map[] == cols;
    } else {
      var front, last := writes[..|writes| - 1], writes[|writes| - 1];
      ReplayIsLastAccepted(cols, front, refused);
      assert writes == front + [last];
      FilterSnoc(front, last, TakenBy(refused));
      ReplayOne(cols, front, last, refused);
      var kept := Filter(front, TakenBy(refused));
      var taken := TakenBy(refused)(last);
      assert taken == Taken(last, refused);
      hide *;
      if taken {
        MergeLast(cols, kept, last);
      } else {
        assert kept + [] == kept;
      }
    }
  }
}
