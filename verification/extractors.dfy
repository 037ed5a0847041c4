/** `ExtractorSchema._dump_extractor_attributes`: the wire `type`/`value`
    pair is derived from the stored `type_extractor` or
    `regular_expression`. */
module Extractors {
  import opened Wrappers
  import opened Values

  /** The `type` the hook settles on: the stored one when present, else
      `'type'` when a `type_extractor` key exists, else `'regex'`. */
  function ExtractorType(item: Record): Value {
    if "type" in item then item["type"]
    else if "type_extractor" in item then Str("type")
    else Str("regex")
  }

  /** The stored key `value` is read from for a given type. */
  function SourceKey(extractorType: Value): string {
    if extractorType == Str("type") then "type_extractor" else "regular_expression"
  }

  /** `_dump_extractor_attributes`: `type` and `value` are only ever added,
      never overwritten; a missing `value` is read from the source key of the
      settled type, and a missing source key raises `KeyError`. */
  function DumpExtractor(item: Record): (r: Result<Record, Error>)
    ensures "value" in item ==> r.Success?
    ensures "value" !in item ==>
      var key := SourceKey(ExtractorType(item));
      && (r.Success? <==> key in item)
      && (r.Success? ==> "value" in r.value && r.value["value"] == item[key])
      && (r.Failure? ==> r.error == KeyError(key))
    ensures r.Success? ==>
      && "type" in r.value && "value" in r.value
      && ("type" in item ==> r.value["type"] == item["type"])
      && ("type" !in item ==> r.value["type"] == Str(if "type_extractor" in item then "type" else "regex"))
      && ("value" in item ==> r.value["value"] == item["value"])
      && forall k :: k != "type" && k != "value" ==> SameOn(item, r.value, k)
  {
    var typed := if "type" !in item then item["type" := if "type_extractor" in item then Str("type") else Str("regex")] else item;
    if "value" in typed then Success(typed)
    else
      var key := if typed["type"] == Str("type") then "type_extractor" else "regular_expression";
      if key in typed then Success(typed["value" := typed[key]]) else Failure(KeyError(key))
  }

  /** Deriving from already-derived output is a no-op. */
  lemma DumpExtractorIdempotent(item: Record)
    requires DumpExtractor(item).Success?
    ensures DumpExtractor(DumpExtractor(item).value) == DumpExtractor(item)
  {
  }
}
