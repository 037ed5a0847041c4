/** `SlydSchema`: the relationship hook shared by every resource schema,
    the `skip_relationships` construction option and the context
    accessors. */
module Relationships {
  import opened Wrappers
  import opened Values

  /** The relationship properties every schema resolves, in hook order. */
  const Properties: seq<string> := ["project", "spider", "schema", "item", "sample", "field"]

  /** The companion id key of a relationship property: `'_'.join((p, 'id'))`. */
  function IdKey(p: string): string {
    p + "_id"
  }

  /** The construction options of a schema that the hook depends on. */
  datatype Schema = Schema(skipRelationships: bool, exclude: Option<seq<string>>)

  /** The output of the relationship hook: the rewritten record and the
      context as the hook leaves it. */
  datatype Dumped = Dumped(item: Record, ctx: Context)

  /** First components of a sequence of pairs (one row of `zip(*pairs)`). */
  function Firsts(pairs: seq<(string, string)>): (r: seq<string>)
    ensures |r| == |pairs|
    ensures forall i :: 0 <= i < |pairs| ==> r[i] == pairs[i].0
  {
    if pairs == [] then [] else [pairs[0].0] + Firsts(pairs[1..])
  }

  /** Second components of a sequence of pairs (the other row of `zip(*pairs)`). */
  function Seconds(pairs: seq<(string, string)>): (r: seq<string>)
    ensures |r| == |pairs|
    ensures forall i :: 0 <= i < |pairs| ==> r[i] == pairs[i].1
  {
    if pairs == [] then [] else [pairs[0].1] + Seconds(pairs[1..])
  }

  /** `SlydSchema.__init__`: with `skip_relationships` the exclusion list
      becomes the caller's list (empty when not given) chained with every
      property name and then every property id; otherwise the options are
      passed through. */
  function NewSchema(skipRelationships: bool, exclude: Option<seq<string>>): (s: Schema)
    ensures s.skipRelationships == skipRelationships
    ensures !skipRelationships ==> s.exclude == exclude
    ensures skipRelationships ==> s.exclude == Some(exclude.GetOr([]) +
      ["project", "spider", "schema", "item", "sample", "field",
       "project_id", "spider_id", "schema_id", "item_id", "sample_id", "field_id"])
  {
    if skipRelationships then
      assert IdKey("project") == "project_id" && IdKey("spider") == "spider_id"
        && IdKey("schema") == "schema_id" && IdKey("item") == "item_id"
        && IdKey("sample") == "sample_id" && IdKey("field") == "field_id";
      var pairs := seq(|Properties|, i requires 0 <= i < |Properties| => (Properties[i], IdKey(Properties[i])));
      var names, ids := Firsts(pairs), Seconds(pairs);
      assert names == Properties;
      assert ids == ["project_id", "spider_id", "schema_id", "item_id", "sample_id", "field_id"];
      assert names + ids ==
        ["project", "spider", "schema", "item", "sample", "field",
         "project_id", "spider_id", "schema_id", "item_id", "sample_id", "field_id"];
      Schema(true, Some(exclude.GetOr([]) + (names + ids)))
    else
      Schema(false, exclude)
  }

  /** The context accessors `project_id` … `field_id`: `context.get(key)`. */
  function ContextId(ctx: Context, p: string): Value {
    Get(ctx, IdKey(p))
  }

  /** The hook keeps the record's own `<p>_id` (and caches it in the
      context) when the key is present and the record's `id` is not None. */
  predicate KeepsOwnId(item: Record, p: string) {
    IdKey(p) in item && "id" in item && item["id"] != Null
  }

  /** The `<p>_id` the hook settles on for property `p`. */
  function ResolvedId(item: Record, ctx: Context, p: string): Value {
    if KeepsOwnId(item, p) then item[IdKey(p)] else ContextId(ctx, p)
  }

  /** Everything the hook promises about property `p`, in terms of the
      input record and context. */
  ghost predicate ResolvedAttr(p: string, item: Record, ctx: Context, out: Dumped) {
    var v := ResolvedId(item, ctx, p);
    && IdKey(p) in out.item && out.item[IdKey(p)] == v
    && (if Get(item, p) == Null && Truthy(v)
        then p in out.item && out.item[p] == Stub(v)
        else SameOn(item, out.item, p))
    && (if KeepsOwnId(item, p)
        then IdKey(p) in out.ctx && out.ctx[IdKey(p)] == item[IdKey(p)]
        else SameOn(ctx, out.ctx, IdKey(p)))
  }

  /** The id keys of a list of properties. */
  ghost function IdKeys(ps: seq<string>): set<string> {
    set p | p in ps :: IdKey(p)
  }

  /** Reference description of a whole hook run over `ps`: each property
      resolved as `ResolvedAttr` says, every other record key and every
      other context key untouched. */
  ghost predicate ResolvedAll(ps: seq<string>, item: Record, ctx: Context, out: Dumped) {
    && (forall p :: p in ps ==> ResolvedAttr(p, item, ctx, out))
    && (forall k :: k !in ps && k !in IdKeys(ps) ==> SameOn(item, out.item, k))
    && (forall k :: k !in IdKeys(ps) ==> SameOn(ctx, out.ctx, k))
  }

  /** The hook fails exactly when some `<p>_id` is present but `id` is not:
      the guard then evaluates `item['id']` and raises `KeyError`. */
  predicate MissingOwnId(ps: seq<string>, item: Record) {
    "id" !in item && exists p :: p in ps && IdKey(p) in item
  }

  /** Distinct property names without `_` and other than `id`: their keys
      and id keys never collide with each other or with `id`, so that the
      loop iterations are independent. */
  predicate Independent(ps: seq<string>) {
    && (forall i, j :: 0 <= i < j < |ps| ==> ps[i] != ps[j])
    && (forall p :: p in ps ==> '_' !in p && p != "id")
  }

  /** A name without `_` is never an id key. */
  lemma NotAnIdKey(p: string, q: string)
    requires '_' !in p
    ensures p != IdKey(q)
  {
    assert IdKey(q)[|q|] == '_';
  }

  /** Distinct names have distinct id keys. */
  lemma IdKeyInjective(p: string, q: string)
    requires p != q
    ensures IdKey(p) != IdKey(q)
  {
    assert IdKey(p)[..|p|] == p;
    assert IdKey(q)[..|q|] == q;
  }

  /** One iteration of the loop in `_dump_relationship_properties`. */
  function ResolveOne(p: string, item: Record, ctx: Context): Result<Dumped, Error> {
    var key := IdKey(p);
    if key in item && "id" !in item then Failure(KeyError("id"))
    else
      var fromContext := key !in item || item["id"] == Null;
      var item1 := item[key := if fromContext then ContextId(ctx, p) else item[key]];
      var ctx1 := if fromContext then ctx else ctx[key := item[key]];
      var item2 := if Get(item1, p) == Null && Truthy(item1[key]) then item1[p := Stub(item1[key])] else item1;
      Success(Dumped(item2, ctx1))
  }

  /** The loop in `_dump_relationship_properties`, over the properties `ps`
      in order; the first `KeyError` aborts the dump. */
  function ResolveAll(ps: seq<string>, item: Record, ctx: Context): Result<Dumped, Error>
    decreases |ps|
  {
    if ps == [] then Success(Dumped(item, ctx))
    else match ResolveOne(ps[0], item, ctx)
      case Failure(e) => Failure(e)
      case Success(d) => ResolveAll(ps[1..], d.item, d.ctx)
  }

  /** `ResolvedAttr` only looks at `p`, `<p>_id` and `id` of the record and
      at `<p>_id` of the context. */
  lemma ResolvedAttrLocal(p: string, item: Record, ctx: Context, item': Record, ctx': Context, out: Dumped)
    requires SameOn(item, item', p) && SameOn(item, item', IdKey(p)) && SameOn(item, item', "id")
    requires SameOn(ctx, ctx', IdKey(p))
    ensures ResolvedId(item, ctx, p) == ResolvedId(item', ctx', p)
    ensures ResolvedAttr(p, item, ctx, out) <==> ResolvedAttr(p, item', ctx', out)
  {
  }

  /** The first of a list of independent properties shares no key with
      the others, and the others are independent too. */
  lemma HeadIsolated(ps: seq<string>)
    requires Independent(ps) && ps != []
    ensures Independent(ps[1..])
    ensures ps[0] != "id" && IdKey(ps[0]) != "id"
    ensures ps[0] !in ps[1..] && ps[0] !in IdKeys(ps[1..]) && IdKey(ps[0]) !in IdKeys(ps[1..])
    ensures forall q :: q in ps[1..] ==>
      q != ps[0] && q != IdKey(ps[0]) && IdKey(q) != ps[0] && IdKey(q) != IdKey(ps[0]) && IdKey(q) != "id"
  {
    var p, rest := ps[0], ps[1..];
    assert forall q :: q in rest ==> q in ps;
    assert forall i :: 1 <= i < |ps| ==> ps[i] != ps[0];
    NotAnIdKey(p, p);
    forall q | q in rest
      ensures q != p && q != IdKey(p) && IdKey(q) != p && IdKey(q) != IdKey(p) && IdKey(q) != "id"
    {
      NotAnIdKey(q, p);
      NotAnIdKey(p, q);
      IdKeyInjective(p, q);
    }
  }

  /** One iteration resolves its property and touches nothing else. */
  lemma ResolveOneFrame(p: string, item: Record, ctx: Context, d: Dumped)
    requires ResolveOne(p, item, ctx) == Success(d)
    ensures ResolvedAttr(p, item, ctx, d)
    ensures forall k :: k != p && k != IdKey(p) ==> SameOn(item, d.item, k)
    ensures forall k :: k != IdKey(p) ==> SameOn(ctx, d.ctx, k)
  {
  }

  /** The failure condition after the first iteration is the failure
      condition of the whole run. */
  lemma MissingOwnIdStep(ps: seq<string>, item: Record, d: Dumped)
    requires Independent(ps) && ps != []
    requires IdKey(ps[0]) !in item || "id" in item
    requires forall k :: k != ps[0] && k != IdKey(ps[0]) ==> SameOn(item, d.item, k)
    ensures MissingOwnId(ps, item) <==> MissingOwnId(ps[1..], d.item)
  {
    HeadIsolated(ps);
    assert forall q :: q in ps <==> q == ps[0] || q in ps[1..];
    assert SameOn(item, d.item, "id");
    if MissingOwnId(ps[1..], d.item) {
      var q :| q in ps[1..] && IdKey(q) in d.item;
      assert SameOn(item, d.item, IdKey(q));
      assert q in ps;
    }
    if MissingOwnId(ps, item) {
      var q :| q in ps && IdKey(q) in item;
      assert q != ps[0];
      assert q in ps[1..];
      assert SameOn(item, d.item, IdKey(q));
    }
  }

  /** The reference description of the whole run follows from that of the
      first iteration and that of the rest. */
  lemma ResolvedAllStep(ps: seq<string>, item: Record, ctx: Context, d: Dumped, out: Dumped)
    requires Independent(ps) && ps != []
    requires ResolvedAttr(ps[0], item, ctx, d)
    requires forall k :: k != ps[0] && k != IdKey(ps[0]) ==> SameOn(item, d.item, k)
    requires forall k :: k != IdKey(ps[0]) ==> SameOn(ctx, d.ctx, k)
    requires ResolvedAll(ps[1..], d.item, d.ctx, out)
    ensures ResolvedAll(ps, item, ctx, out)
  {
    var p, rest := ps[0], ps[1..];
    HeadIsolated(ps);
    assert forall q :: q in ps <==> q == p || q in rest;
    forall q | q in ps
      ensures ResolvedAttr(q, item, ctx, out)
    {
      if q != p {
        ResolvedAttrLocal(q, item, ctx, d.item, d.ctx, out);
      }
    }
    assert IdKeys(ps) == IdKeys(rest) + {IdKey(p)};
    forall k | k !in ps && k !in IdKeys(ps)
      ensures SameOn(item, out.item, k)
    {
      assert k != p && k != IdKey(p) && k !in rest && k !in IdKeys(rest);
      assert SameOn(item, d.item, k) && SameOn(d.item, out.item, k);
    }
    forall k | k !in IdKeys(ps)
      ensures SameOn(ctx, out.ctx, k)
    {
      assert k != IdKey(p) && k !in IdKeys(rest);
      assert SameOn(ctx, d.ctx, k) && SameOn(d.ctx, out.ctx, k);
    }
  }

  /** A run over independent properties meets the reference description,
      and fails exactly on a record that has some `<p>_id` but no `id`. */
  lemma {:induction false} ResolveAllCorrect(ps: seq<string>, item: Record, ctx: Context)
    requires Independent(ps)
    ensures ResolveAll(ps, item, ctx).Failure? <==> MissingOwnId(ps, item)
    ensures ResolveAll(ps, item, ctx).Failure? ==> ResolveAll(ps, item, ctx).error == KeyError("id")
    ensures ResolveAll(ps, item, ctx).Success? ==> ResolvedAll(ps, item, ctx, ResolveAll(ps, item, ctx).value)
    decreases |ps|
  {
    if ps == [] {
      return;
    }
    var p := ps[0];
    if ResolveOne(p, item, ctx).Failure? {
      assert p in ps;
      return;
    }
    var d := ResolveOne(p, item, ctx).value;
    HeadIsolated(ps);
    ResolveOneFrame(p, item, ctx, d);
    ResolveAllCorrect(ps[1..], d.item, d.ctx);
    MissingOwnIdStep(ps, item, d);
    var r := ResolveAll(ps[1..], d.item, d.ctx);
    assert ResolveAll(ps, item, ctx) == r;
    if r.Success? {
      ResolvedAllStep(ps, item, ctx, d, r.value);
    }
  }

  lemma PropertiesIndependent()
    ensures Independent(Properties)
  {
  }

  /** `SlydSchema._dump_relationship_properties`. In skip mode the record
      and the context come back untouched; otherwise every property is
      resolved as `ResolvedAll` describes, and the only failure is the
      `KeyError` on a record with some `<p>_id` but no `id`. */
  function DumpRelationships(schema: Schema, item: Record, ctx: Context): (r: Result<Dumped, Error>)
    ensures schema.skipRelationships ==> r == Success(Dumped(item, ctx))
    ensures !schema.skipRelationships ==> (r.Failure? <==> MissingOwnId(Properties, item))
    ensures r.Failure? ==> r.error == KeyError("id")
    ensures !schema.skipRelationships && r.Success? ==> ResolvedAll(Properties, item, ctx, r.value)
  {
    if schema.skipRelationships then Success(Dumped(item, ctx))
    else
      PropertiesIndependent();
      ResolveAllCorrect(Properties, item, ctx);
      ResolveAll(Properties, item, ctx)
  }

  /** The hook never writes the record's `id`. */
  lemma IdUntouched()
    ensures "id" !in Properties && "id" !in IdKeys(Properties)
  {
    PropertiesIndependent();
    forall p | p in Properties
      ensures "id" != IdKey(p)
    {
      NotAnIdKey("id", p);
    }
  }

  /** One property of a twice-dumped record: the second run settles on the
      same id and stub as the first. */
  lemma StableAt(p: string, item: Record, ctx: Context, d: Dumped, e: Dumped)
    requires "id" in item && SameOn(item, d.item, "id")
    requires ResolvedAttr(p, item, ctx, d) && ResolvedAttr(p, d.item, d.ctx, e)
    ensures SameOn(d.item, e.item, p) && SameOn(d.item, e.item, IdKey(p))
    ensures Get(e.ctx, IdKey(p)) == Get(d.ctx, IdKey(p))
  {
  }

  /** A second run over independent properties, on a record with an `id`,
      leaves the record as the first run left it, and the context reads the
      same under every key. */
  lemma {:induction false} ResolveAllStable(ps: seq<string>, item: Record, ctx: Context, d: Dumped)
    requires Independent(ps) && "id" in item && "id" !in ps
    requires ResolveAll(ps, item, ctx) == Success(d)
    ensures var r := ResolveAll(ps, d.item, d.ctx);
            && r.Success? && r.value.item == d.item
            && forall k :: Get(r.value.ctx, k) == Get(d.ctx, k)
  {
    ResolveAllCorrect(ps, item, ctx);
    assert "id" !in IdKeys(ps) by {
      forall p | p in ps
        ensures "id" != IdKey(p)
      {
        NotAnIdKey("id", p);
      }
    }
    assert SameOn(item, d.item, "id");
    ResolveAllCorrect(ps, d.item, d.ctx);
    var e := ResolveAll(ps, d.item, d.ctx).value;
    forall p | p in ps
      ensures SameOn(d.item, e.item, p) && SameOn(d.item, e.item, IdKey(p))
      ensures Get(e.ctx, IdKey(p)) == Get(d.ctx, IdKey(p))
    {
      StableAt(p, item, ctx, d, e);
    }
    forall k
      ensures Get(e.ctx, k) == Get(d.ctx, k)
      ensures k in e.item <==> k in d.item
      ensures k in d.item ==> e.item[k] == d.item[k]
    {
      assert SameOn(d.item, e.item, k) by {
        if k in IdKeys(ps) {
          var p :| p in ps && k == IdKey(p);
        }
      }
      if k in IdKeys(ps) {
        var p :| p in ps && k == IdKey(p);
      }
    }
    assert e.item == d.item;
  }

  /** A record that has an `id` always dumps, and dumping the relationships
      a second time changes nothing in the record, and the context reads the same under
      every key (`context.get`). */
  lemma DumpRelationshipsStable(schema: Schema, item: Record, ctx: Context)
    requires "id" in item
    ensures DumpRelationships(schema, item, ctx).Success?
    ensures var d := DumpRelationships(schema, item, ctx).value;
            var r := DumpRelationships(schema, d.item, d.ctx);
            && r.Success? && r.value.item == d.item
            && forall k :: Get(r.value.ctx, k) == Get(d.ctx, k)
  {
    if !schema.skipRelationships {
      assert !MissingOwnId(Properties, item);
      PropertiesIndependent();
      IdUntouched();
      ResolveAllStable(Properties, item, ctx, DumpRelationships(schema, item, ctx).value);
    }
  }

  /** Without an `id`, a successful dump has added every `<p>_id` key, so
      dumping its output again raises `KeyError('id')`. */
  lemma SecondDumpNeedsId(schema: Schema, item: Record, ctx: Context)
    requires !schema.skipRelationships && "id" !in item
    requires DumpRelationships(schema, item, ctx).Success?
    ensures var d := DumpRelationships(schema, item, ctx).value;
            DumpRelationships(schema, d.item, d.ctx) == Failure(KeyError("id"))
  {
    var d := DumpRelationships(schema, item, ctx).value;
    assert ResolvedAttr("project", item, ctx, d);
    IdUntouched();
    assert MissingOwnId(Properties, d.item);
  }

  /** A relationship appears or changes exactly when the record had none
      (or None) and the resolved id is truthy; with a falsy id and no
      relationship on the record, none is emitted. */
  lemma NoDanglingRelationship(schema: Schema, item: Record, ctx: Context, p: string)
    requires !schema.skipRelationships && p in Properties
    requires DumpRelationships(schema, item, ctx).Success?
    ensures var out := DumpRelationships(schema, item, ctx).value.item;
            && (Get(out, p) != Get(item, p) <==> Get(item, p) == Null && Truthy(ResolvedId(item, ctx, p)))
            && (p !in item && !Truthy(ResolvedId(item, ctx, p)) ==> p !in out)
  {
    assert ResolvedAttr(p, item, ctx, DumpRelationships(schema, item, ctx).value);
  }
}
