/** Parent resolution: `BaseAnnotationSchema.parent_id` and
    `_dump_parent_id` for annotations, and `ItemSchema._dump_parent_id`. */
module Parents {
  import opened Wrappers
  import opened Values

  /** `BaseAnnotationSchema.parent_id`: the context's `container_id` when the
      key is present (whatever its value), otherwise the `item_id` accessor. */
  function ContextParentId(ctx: Context): Value {
    if "container_id" in ctx then ctx["container_id"] else Get(ctx, "item_id")
  }

  /** `item['parent']['id']` when the record has a `parent` key, None when
      it has not; a non-dict parent or a parent without `id` raises. */
  function ParentStubId(item: Record): Result<Value, Error> {
    if "parent" !in item then Success(Null)
    else match item["parent"]
      case Dict(m) => if "id" in m then Success(m["id"]) else Failure(KeyError("id"))
      case _ => Failure(TypeError)
  }

  /** The candidate parent id, in priority order: a truthy stub id; else the
      record's `container_id` when the key is present; else the context's
      `container_id` when present; else the context's `item_id`. A falsy
      choice becomes the empty string. */
  function Candidate(item: Record, ctx: Context, stubId: Value): Value {
    if Truthy(stubId) then stubId
    else
      var fallback := if "container_id" in item then item["container_id"] else ContextParentId(ctx);
      if Truthy(fallback) then fallback else Str("")
  }

  /** The two-way `#`-split test: the own id's base equals the candidate, or
      the candidate's base equals the own (full) id. */
  predicate SelfLoop(own: string, cand: string) {
    BaseId(own) == cand || BaseId(cand) == own
  }

  /** Link the record to parent `cand`: `parent` becomes a stub for it, and
      `parent_id` is filled in when absent or None. */
  function Link(item: Record, cand: string): Record {
    var withParent := item["parent" := Stub(Str(cand))];
    if Get(withParent, "parent_id") == Null then withParent["parent_id" := Str(cand)] else withParent
  }

  /** `BaseAnnotationSchema._dump_parent_id`, as written. On success the
      record is either unlinked (`SelfLoop`), linked to the candidate, or
      unchanged (empty candidate); the failures are the exceptions of the
      Python code. `SelfLoop` misses a candidate equal to an own id that
      contains `#`, which is then linked to itself (`AnnotationLinkedToItself`). */
  function DumpAnnotationParent(item: Record, ctx: Context): (r: Result<Record, Error>)
    ensures ParentStubId(item).Failure? ==> r == Failure(ParentStubId(item).error)
    ensures ParentStubId(item).Success? ==>
      var cand := Candidate(item, ctx, ParentStubId(item).value);
      && ("id" !in item ==> r == Failure(KeyError("id")))
      && ("id" in item && !item["id"].Str? ==> r == Failure(AttributeError))
      && ("id" in item && item["id"].Str? ==>
            (r.Failure? <==> !cand.Str?) && (r.Failure? ==> r.error == AttributeError))
    ensures r.Success? ==>
      var own := item["id"].s;
      var cand := Candidate(item, ctx, ParentStubId(item).value).s;
      && (SelfLoop(own, cand) ==>
            "parent" !in r.value && "parent_id" !in r.value
            && forall k :: k != "parent" && k != "parent_id" ==> SameOn(item, r.value, k))
      && (!SelfLoop(own, cand) && cand != "" ==>
            && "parent" in r.value && "parent_id" in r.value
            && r.value["parent"] == Stub(Str(cand))
            && r.value["parent_id"] == (if Get(item, "parent_id") == Null then Str(cand) else item["parent_id"])
            && forall k :: k != "parent" && k != "parent_id" ==> SameOn(item, r.value, k))
      && (!SelfLoop(own, cand) && cand == "" ==> r.value == item)
  {
    var stubId :- ParentStubId(item);
    var cand := Candidate(item, ctx, stubId);
    if "id" !in item then Failure(KeyError("id"))
    else if !item["id"].Str? then Failure(AttributeError)
    else
      var own := item["id"].s;
      if Str(BaseId(own)) == cand then Success(item - {"parent", "parent_id"})
      else if !cand.Str? then Failure(AttributeError)
      else if BaseId(cand.s) == own then Success(item - {"parent", "parent_id"})
      else if cand.s != "" then Success(Link(item, cand.s))
      else Success(item)
  }

  /** Dumping an annotation's parent twice gives the first result again,
      except when the first run unlinked the record because of its own
      `parent` stub: that stub is gone, so the second run falls back to
      `container_id` or the context. */
  lemma {:induction false} AnnotationParentStable(item: Record, ctx: Context)
    requires DumpAnnotationParent(item, ctx).Success?
    requires var stubId := ParentStubId(item).value;
             !(Truthy(stubId) && SelfLoop(item["id"].s, Candidate(item, ctx, stubId).s))
    ensures var once := DumpAnnotationParent(item, ctx).value;
            DumpAnnotationParent(once, ctx) == Success(once)
  {
    var stubId := ParentStubId(item).value;
    var own := item["id"].s;
    var cand := Candidate(item, ctx, stubId).s;
    var once := DumpAnnotationParent(item, ctx).value;
    if SelfLoop(own, cand) {
      // the candidate came from the fallback, which the first run kept
      assert !Truthy(stubId);
      assert ParentStubId(once) == Success(Null);
      assert Candidate(once, ctx, Null) == Candidate(item, ctx, stubId);
      assert once - {"parent", "parent_id"} == once;
    } else if cand != "" {
      assert ParentStubId(once) == Success(Str(cand));
      assert Candidate(once, ctx, Str(cand)) == Str(cand);
      assert Link(once, cand) == once;
    } else {
      assert once == item;
    }
  }

  /** When the first run unlinked the record because of its own truthy
      `parent` stub, the stub is gone, so a second run falls back to the
      record's `container_id` or the context; whenever that fallback is a
      non-empty string that is not itself a self-loop, the second run links
      the record to it, and so differs from the first. */
  lemma AnnotationParentNotIdempotent(item: Record, ctx: Context)
    requires DumpAnnotationParent(item, ctx).Success?
    requires var stubId := ParentStubId(item).value;
             Truthy(stubId) && stubId.Str? && SelfLoop(item["id"].s, stubId.s)
    requires var fallback := Candidate(item, ctx, Null);
             fallback.Str? && fallback.s != "" && !SelfLoop(item["id"].s, fallback.s)
    ensures var once := DumpAnnotationParent(item, ctx).value;
            && "parent" !in once
            && DumpAnnotationParent(once, ctx).Success?
            && DumpAnnotationParent(once, ctx).value["parent"] == Stub(Candidate(item, ctx, Null))
  {
    var once := DumpAnnotationParent(item, ctx).value;
    assert once == item - {"parent", "parent_id"};
    assert ParentStubId(once) == Success(Null);
    assert Candidate(once, ctx, Null) == Candidate(item, ctx, Null);
  }

  /** An annotation whose id is a `#`-variant of the candidate parent (the
      case of `item1#0` under `item1`) is never linked to it. */
  lemma VariantOfParentIsUnlinked(item: Record, ctx: Context, base: string, variant: string)
    requires '#' !in base
    requires "id" in item && item["id"] == Str(base + "#" + variant)
    requires ParentStubId(item).Success?
    requires Candidate(item, ctx, ParentStubId(item).value) == Str(base)
    ensures DumpAnnotationParent(item, ctx).Success?
    ensures "parent" !in DumpAnnotationParent(item, ctx).value
    ensures "parent_id" !in DumpAnnotationParent(item, ctx).value
  {
    BaseIdOfVariant(base, variant);
  }

  /** The test is asymmetric: two variants of the same base are not a
      self-reference, so one is linked to the other, even when the two
      variants are the same. */
  lemma SiblingVariantIsLinked(item: Record, ctx: Context, base: string, v1: string, v2: string)
    requires '#' !in base
    requires "id" in item && item["id"] == Str(base + "#" + v1)
    requires ParentStubId(item).Success?
    requires Candidate(item, ctx, ParentStubId(item).value) == Str(base + "#" + v2)
    ensures DumpAnnotationParent(item, ctx).Success?
    ensures DumpAnnotationParent(item, ctx).value["parent"] == Stub(Str(base + "#" + v2))
  {
    BaseIdOfVariant(base, v1);
    BaseIdOfVariant(base, v2);
    assert (base + "#" + v1)[|base| + 1..] == v1;
    assert (base + "#" + v2)[|base| + 1..] == v2;
  }

  /** As written, an annotation whose id contains `#` and whose candidate is
      that same id (say `{'id': 'a#1', 'parent': {'id': 'a#1'}}`) passes the
      self-loop test and is linked to itself. */
  lemma AnnotationLinkedToItself(item: Record, ctx: Context, base: string, variant: string)
    requires '#' !in base
    requires "id" in item && item["id"] == Str(base + "#" + variant)
    requires ParentStubId(item).Success?
    requires Candidate(item, ctx, ParentStubId(item).value) == item["id"]
    ensures DumpAnnotationParent(item, ctx).Success?
    ensures DumpAnnotationParent(item, ctx).value["parent"] == Stub(item["id"])
    ensures DumpAnnotationParent(item, ctx).value["parent_id"] != Null
  {
    SiblingVariantIsLinked(item, ctx, base, variant, variant);
  }

  /** Apart from a candidate equal to the own id, the hook as written never
      leaves the record pointing at itself. */
  lemma OnlyExactCandidateSelfLinks(item: Record, ctx: Context)
    requires DumpAnnotationParent(item, ctx).Success?
    requires Candidate(item, ctx, ParentStubId(item).value) != item["id"]
    ensures Get(DumpAnnotationParent(item, ctx).value, "parent") != Stub(item["id"])
  {
    var stubId := ParentStubId(item).value;
    var own := item["id"].s;
    var cand := Candidate(item, ctx, stubId).s;
    var out := DumpAnnotationParent(item, ctx).value;
    if !SelfLoop(own, cand) && cand == "" {
      // the record keeps its parent; a stub for the own id would have made
      // the (non-empty) own id the candidate
      assert out == item;
      assert BaseId("") == "";
      assert own != "";
      assert Candidate(item, ctx, Str(own)) == Str(own);
      assert "parent" in item && item["parent"] == Stub(Str(own)) ==> ParentStubId(item) == Success(Str(own));
    } else if SelfLoop(own, cand) {
      assert "parent" !in out;
    } else {
      assert out["parent"] == Stub(Str(cand));
      assert Stub(Str(cand)).fields["id"] == Str(cand) != item["id"];
    }
  }

  /** `_dump_parent_id` with the self-reference test completed: a candidate
      equal to the own id also unlinks the record. It fails exactly when the
      hook as written fails, never links an annotation to itself, and
      agrees with the hook as written on every other candidate. */
  function DumpAnnotationParentCorrected(item: Record, ctx: Context): (r: Result<Record, Error>)
    ensures r.Failure? <==> DumpAnnotationParent(item, ctx).Failure?
    ensures r.Success? ==> Get(r.value, "parent") != Stub(item["id"])
    ensures r.Success? && Candidate(item, ctx, ParentStubId(item).value) != item["id"] ==>
      r == DumpAnnotationParent(item, ctx)
  {
    var written := DumpAnnotationParent(item, ctx);
    if written.Success? && Candidate(item, ctx, ParentStubId(item).value) != item["id"] then
      OnlyExactCandidateSelfLinks(item, ctx);
      written
    else if written.Success? && Candidate(item, ctx, ParentStubId(item).value) == item["id"] then
      Success(item - {"parent", "parent_id"})
    else
      written
  }

  /** `ItemSchema._dump_parent_id`: a truthy `container_id` replaces `parent`
      with a stub for it and fills `parent_id` when absent or None; a falsy
      or missing one changes nothing. The context plays no part. */
  function DumpItemParent(item: Record): (r: Record)
    ensures !Truthy(Get(item, "container_id")) ==> r == item
    ensures Truthy(Get(item, "container_id")) ==>
      && "parent" in r && r["parent"] == Stub(item["container_id"])
      && "parent_id" in r
      && (Get(item, "parent_id") == Null ==> r["parent_id"] == item["container_id"])
      && (Get(item, "parent_id") != Null ==> r["parent_id"] == item["parent_id"])
    ensures forall k :: k != "parent" && k != "parent_id" ==> SameOn(item, r, k)
  {
    var parentId := Get(item, "container_id");
    if !Truthy(parentId) then item
    else
      var withParent := item["parent" := Stub(parentId)];
      if Get(withParent, "parent_id") == Null then withParent["parent_id" := parentId] else withParent
  }

  /** Dumping an item's parent is idempotent. */
  lemma ItemParentIdempotent(item: Record)
    ensures DumpItemParent(DumpItemParent(item)) == DumpItemParent(item)
  {
    var once := DumpItemParent(item);
    assert Get(once, "container_id") == Get(item, "container_id");
  }
}
