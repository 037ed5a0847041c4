# slyd resource mapping hooks, modelled in Dafny

This project models the mapping hooks of the slyd resource layer
(`slyd/slyd/resources/models.py`). The layer turns stored Portia project
records into JSON:API resources. The hooks are small rewrites of one
record (a Python dict) that run around marshmallow serialisation:

- the relationship hook shared by every schema, which fills in each
  `<p>_id` from the record or the per-request context, caches record ids in
  the context, and synthesises `{'id': …}` stubs;
- the `skip_relationships` construction option;
- parent resolution for annotations (with the `#`-variant self-loop test)
  and for items;
- login flattening for spiders (`init_requests` ⇄ `login_*`);
- extractor `type`/`value` derivation;
- the `items` defaulting of sample dumps.

A record is a `map<string, Value>`. `Value` is a Python value: None, a
string, a boolean, an integer, a list or a dict. The per-request context is
passed explicitly as another such map, and the hooks that write to it return
it. The context accessors (`project_id` … `field_id` and the annotation
`parent_id` property) are `Relationships.ContextId` and
`Parents.ContextParentId`. Python truthiness is `Values.Truthy`, and
`s.split('#')[0]` is `Values.BaseId`. Each Python exception a hook can
raise becomes a `Failure` carrying `KeyError(key)`, `TypeError` or
`AttributeError`.

Modules: `Wrappers` (Option, Result), `Values` (values, truthiness, base
ids), `Relationships` (`SlydSchema`), `Parents` (`BaseAnnotationSchema`,
`ItemSchema`), `Login` (`SpiderSchema`), `Extractors` (`ExtractorSchema`),
`Samples` (`SampleSchema`).

A few behaviours of the code are easy to misread; the model follows the
code:

- The relationship hook decides whether to adopt the record's own `<p>_id`
  by testing whether the record's `id` is None, not whether `<p>_id` is
  None. A None `<p>_id` on a record with an id is therefore kept and copied
  into the context.
- Item parent resolution reads only the record's own `container_id`. There
  is no context fallback.
- `skip_relationships` excludes only the six properties `project`,
  `spider`, `schema`, `item`, `sample` and `field`, plus their six `_id`
  keys. A project's `spiders`, `schemas` and `extractors` are not in that
  list.
- The login dump expands `init_requests` whenever it is truthy. A truthy
  value that is not a list, or a first element that is not a dict with the
  three fields, raises.
- A stored `type` other than `'type'` reads `value` from
  `regular_expression`, and a missing source key raises `KeyError`. This
  also applies when `type` was stored explicitly.

## Model

| member | source | states |
|---|---|---|
| `Values.BaseId` | slyd/slyd/resources/models.py:279-280 | the base id is a prefix of the identifier, contains no `#`, and ends at the first `#` or at the end of the string |
| `Values.BaseIdOfVariant` | slyd/slyd/resources/models.py:279-280 | `base#variant` has base id `base`, and an identifier without `#` is its own base id |
| `Relationships.NewSchema` | slyd/slyd/resources/models.py:17-24 | with `skip_relationships`, the exclusion list is the caller's list (or empty), then the six property names, then the six `_id` names, and nothing else; without it, the options are unchanged |
| `Relationships.DumpRelationships` | slyd/slyd/resources/models.py:50-62 | skip mode returns the record and context untouched; otherwise it fails with `KeyError('id')` exactly when some `<p>_id` is present without `id`, and on success every property is resolved as `ResolvedAll` describes |
| `Relationships.ResolveAllCorrect` | slyd/slyd/resources/models.py:54-61 | for any list of distinct property names (none containing `_`, none equal to `id`), the loop meets the reference description `ResolvedAll`. Each `<p>_id` is present. It is taken from the context when absent or when `id` is None, and otherwise the record's value is kept and copied into the context. A stub `{'id': v}` appears exactly when `p` was absent or None and `v` is truthy. All other record and context keys are untouched |
| `Relationships.NoDanglingRelationship` | slyd/slyd/resources/models.py:60-61 | a property changes exactly when it was absent or None and its resolved id is truthy; with a falsy id, no relationship is added |
| `Relationships.DumpRelationshipsStable` | slyd/slyd/resources/models.py:54-61 | a record with an `id` always dumps, and a second relationship dump leaves the record as the first one left it, and `context.get` returns the same value for every key |
| `Relationships.SecondDumpNeedsId` | slyd/slyd/resources/models.py:55-57 | on a record without `id`, the first dump adds every `<p>_id`, so a second dump raises `KeyError('id')` |
| `Parents.DumpAnnotationParent` | slyd/slyd/resources/models.py:268-287 | the hook as written. The candidate is chosen in a fixed order: a truthy stub id, then the record's `container_id`, then the context's `container_id`, then the context's `item_id`; a falsy choice becomes `''`. When the own id's base equals the candidate, or the candidate's base equals the own id, `parent` and `parent_id` are removed; a candidate identical to an own id that contains `#` passes this test and is linked to itself. Otherwise a non-empty candidate sets the stub and fills `parent_id` only when it was absent or None, and an empty candidate changes nothing. The failures are a malformed `parent` (TypeError or KeyError), a missing `id` (KeyError), and a non-string `id` or candidate (AttributeError). No other key changes |
| `Parents.AnnotationParentStable` | slyd/slyd/resources/models.py:272-287 | a second run gives the first result again, unless the first run unlinked the record because of its own parent stub |
| `Parents.AnnotationParentNotIdempotent` | slyd/slyd/resources/models.py:275-287 | when the first run unlinked the record because of its own truthy stub, and the fallback (`container_id`, else the context) is a non-empty string that is not itself a self-loop, the second run links the record to that fallback, so the two runs differ |
| `Parents.VariantOfParentIsUnlinked` | slyd/slyd/resources/models.py:279-283 | an annotation whose id is `base#v` and whose candidate is `base` ends with neither `parent` nor `parent_id` |
| `Parents.SiblingVariantIsLinked` | slyd/slyd/resources/models.py:279-287 | the test is asymmetric: an annotation `base#v1` with candidate `base#v2` is linked to `base#v2`, for every pair of variants, the same variant included |
| `Parents.AnnotationLinkedToItself` | slyd/slyd/resources/models.py:279-287 | as written, an annotation whose id contains `#` and whose candidate is that same id is linked to itself: `parent` becomes the stub of its own id and `parent_id` is set |
| `Parents.OnlyExactCandidateSelfLinks` | slyd/slyd/resources/models.py:279-287 | as written, a successful run whose candidate differs from the own id never leaves `parent` pointing at the annotation itself |
| `Parents.DumpAnnotationParentCorrected` | slyd/slyd/resources/models.py:279-287 | the hook with an exact-match test added: it fails exactly when the hook as written fails, never leaves `parent` pointing at the annotation itself, and agrees with the hook as written whenever the candidate differs from the own id |
| `Parents.DumpItemParent` | slyd/slyd/resources/models.py:406-412 | a truthy `container_id` replaces `parent` with its stub and fills `parent_id` only when it was absent or None; a falsy or missing `container_id` changes nothing; the hook never looks at the context; no other key changes |
| `Parents.ItemParentIdempotent` | slyd/slyd/resources/models.py:406-412 | dumping an item's parent twice is the same as dumping it once |
| `Login.LoadLogin` | slyd/slyd/resources/models.py:176-188 | when all three `login_*` keys are present and truthy, `init_requests` is exactly one login record carrying their values; otherwise `init_requests` is left as it was; the three flat keys are always removed; no other key changes |
| `Login.DumpLogin` | slyd/slyd/resources/models.py:166-174 | `init_requests` is always removed. When it was truthy, the first request's `loginurl`, `username` and `password` become the three flat keys. The dump fails exactly when a truthy `init_requests` is not a list whose first element is a dict holding those fields. No other key changes |
| `Login.LoadThenDump` | slyd/slyd/resources/models.py:166-188 | loading a complete login and dumping the result gives back the input record, minus any `init_requests` it carried |
| `Login.DumpThenLoad` | slyd/slyd/resources/models.py:166-188 | dumping a stored single login request with truthy values and loading the result gives back the stored record, minus any stray flat keys |
| `Login.PartialLoginDropped` | slyd/slyd/resources/models.py:178-187 | any triple that is not complete and truthy is dropped on load, with no error: no `init_requests` is added and none of the three flat keys remains |
| `Extractors.DumpExtractor` | slyd/slyd/resources/models.py:348-355 | `type` and `value` are only ever added, never overwritten. An added `type` is `'type'` when `type_extractor` is present and `'regex'` otherwise. A missing `value` comes from the source key of the settled type. The hook fails with `KeyError` exactly when that source key is missing. No other key changes |
| `Extractors.DumpExtractorIdempotent` | slyd/slyd/resources/models.py:348-355 | deriving again from derived output changes nothing |
| `Samples.DefaultItems` | slyd/slyd/resources/models.py:234 | afterwards `items` is present; an existing value is kept and a missing one becomes `[]`; no other key changes |
| `Samples.DefaultItemsIdempotent` | slyd/slyd/resources/models.py:234 | defaulting twice is the same as defaulting once |
| `Samples.DumpSamples` | slyd/slyd/resources/models.py:232-234 | a single sample, or each sample of a list (same length, same order), is defaulted by `DefaultItems` |

## Findings

| source | as written | input that shows it | evidently intended | confidence | as-written member | corrected member |
|---|---|---|---|---|---|---|
| slyd/slyd/resources/models.py:279-280 | the self-reference test compares the own id's base with the candidate, and the candidate's base with the own id, but never the two full ids | `{'id': 'a#1', 'parent': {'id': 'a#1'}}`: both comparisons are `'a' == 'a#1'`, so the annotation gets `parent = {'id': 'a#1'}` and `parent_id = 'a#1'` | an annotation is never its own parent, so an identical candidate is unlinked too | medium, not executed | `Parents.AnnotationLinkedToItself` | `Parents.DumpAnnotationParentCorrected` |

## Left out

- The marshmallow_jsonapi serialisation itself is not modelled, because it is library behaviour. This covers the JSON:API envelope, `related_url` templating, `type_` strings, `include_data`, and the omission of empty relationships on output.
- Field declarations are not modelled, because marshmallow enforces them. This covers `default=`, `required=True` validation, `dump_only`, and the `load_from` id/name aliasing of projects and spiders.
- The declaration-only schemas (`ProjectSchema`, `SchemaSchema`, `FieldSchema`, `HtmlSchema`, the field lists of the annotation schemas) and the constant `empty_data` carry no logic of their own.
- The order in which marshmallow runs several hooks on one schema is not modelled, and no composed pipeline is asserted. For annotations the order matters: the relationship hook can overwrite the context's `item_id`, which the parent hook reads.
- Per-request context isolation and concurrency are not modelled, because they are a caller concern.
- `arg_to_iter` is foreign code. Only the two cases `SampleSchema.dump` relies on are modelled: a single dict and a list of dicts. None, strings and other iterables are left out.
- Both `_dump_parent_id` hooks return None and act by mutating the record in place. The model returns the mutated record.
- When a hook raises part-way, Python has already mutated the record and context for the earlier steps. The model returns only the error.
- `Login.DumpLogin`: Python subscripts a dict-valued `init_requests` with the int `0` and raises `KeyError(0)`. Record keys here are strings, so the model reports `KeyError("0")`.
