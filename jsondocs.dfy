/** A request body as a JSON document keyed by field name, and the
    `fields.forEach(field => { data[field] = rewrite(data[field]) })` loops the
    trip and hotel handlers run over it. */
module JsonDocs {
  import opened Common

  type Doc = map<string, Json>

  /** `data[field]`, with `undefined` as None. */
  function Lookup(d: Doc, k: string): Option<Json> {
    if k in d then Some(d[k]) else None
  }

  /** The field after one rewrite step: None means the step left it alone. */
  function Overlay(v: Option<Json>, was: Option<Json>): Option<Json> {
    if v.Some? then v else was
  }

  predicate Distinct(fields: seq<string>) {
    forall i, j :: 0 <= i < j < |fields| ==> fields[i] != fields[j]
  }

  /** Runs `rewrite` once on each named field, in order. Each field is
      rewritten from its original value; every other field is untouched. */
  method RewriteFields(doc: Doc, fields: seq<string>, rewrite: (string, Option<Json>) -> Option<Json>)
    returns (out: Doc)
    requires Distinct(fields)
    ensures forall k :: k !in fields ==> Lookup(out, k) == Lookup(doc, k)
    ensures forall k :: k in fields ==> Lookup(out, k) == Overlay(rewrite(k, Lookup(doc, k)), Lookup(doc, k))
  {
    out := doc;
    var i := 0;
    while i < |fields|
      invariant 0 <= i <= |fields|
      invariant forall k :: k !in fields[..i] ==> Lookup(out, k) == Lookup(doc, k)
      invariant forall k :: k in fields[..i] ==> Lookup(out, k) == Overlay(rewrite(k, Lookup(doc, k)), Lookup(doc, k))
    {
      var f := fields[i];
      assert f !in fields[..i];
      var v := rewrite(f, Lookup(out, f));
      if v.Some? {
        out := out[f := v.value];
      }
      assert fields[..i + 1] == fields[..i] + [f];
      i := i + 1;
    }
    assert fields[..i] == fields;
  }
}
