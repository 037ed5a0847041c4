/** `SampleSchema.dump`: every sample handed to the dump reports an `items`
    collection, defaulted to an empty list. */
module Samples {
  import opened Values

  /** What `dump` is called with, as far as `arg_to_iter` is concerned here:
      a single sample dict, or a list of them. */
  datatype SampleArg = One(sample: Record) | Many(samples: seq<Record>)

  /** `sample.setdefault('items', [])`. */
  function DefaultItems(sample: Record): (r: Record)
    ensures "items" in r
    ensures "items" in sample ==> r["items"] == sample["items"]
    ensures "items" !in sample ==> r["items"] == List([])
    ensures forall k :: k != "items" ==> SameOn(sample, r, k)
  {
    if "items" in sample then sample else sample["items" := List([])]
  }

  /** Defaulting is idempotent. */
  lemma DefaultItemsIdempotent(sample: Record)
    ensures DefaultItems(DefaultItems(sample)) == DefaultItems(sample)
  {
  }

  /** The defaulting loop of `SampleSchema.dump` over `arg_to_iter(obj)`. */
  method DumpSamples(arg: SampleArg) returns (r: SampleArg)
    ensures r.One? <==> arg.One?
    ensures arg.One? ==> r.sample == DefaultItems(arg.sample)
    ensures arg.Many? ==>
      && |r.samples| == |arg.samples|
      && forall i :: 0 <= i < |arg.samples| ==> r.samples[i] == DefaultItems(arg.samples[i])
  {
    match arg
    case One(sample) =>
      r := One(DefaultItems(sample));
    case Many(samples) =>
      var done: seq<Record> := [];
      var i := 0;
      while i < |samples|
        invariant 0 <= i <= |samples|
        invariant |done| == i
        invariant forall j :: 0 <= j < i ==> done[j] == DefaultItems(samples[j])
      {
        done := done + [DefaultItems(samples[i])];
        i := i + 1;
      }
      r := Many(done);
  }
}
