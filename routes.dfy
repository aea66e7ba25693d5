/** buildUrl: each ":key" placeholder of a route path is replaced, first
    occurrence only, by the string form of its parameter value. */
module Routes {
  import opened Common

  /** A parameter value: a string or an (integer) number. */
  datatype ParamValue = S(s: string) | N(n: int)

  /** String(value) */
  function ValueString(v: ParamValue): string {
    match v
    case S(s) => s
    case N(n) => IntToString(n)
  }

  function Placeholder(key: string): (p: string)
    ensures |p| == |key| + 1 && p[0] == ':' && p[1..] == key
  {
    ":" + key
  }

  /** One forEach step: when the url contains ":key", its first occurrence is
      replaced (with replace's "$" patterns expanded); otherwise the url is
      kept. */
  function Step(url: string, key: string, value: ParamValue): (r: string)
    ensures !Includes(url, Placeholder(key)) ==> r == url
    ensures Includes(url, Placeholder(key)) ==>
      var k := IndexOf(url, Placeholder(key));
      (forall j :: 0 <= j < k ==> !OccursAt(url, Placeholder(key), j)) &&
      r == url[..k] + Expand(ValueString(value), Placeholder(key), url[..k], url[k + |key| + 1..]) + url[k + |key| + 1..]
  {
    IndexOfFacts(url, Placeholder(key));
    if Includes(url, Placeholder(key)) then ReplaceFirst(url, Placeholder(key), ValueString(value)) else url
  }

  /** The url after the forEach has visited the given entries, in order. */
  function Substituted(path: string, entries: seq<(string, ParamValue)>): string
    decreases |entries|
  {
    if |entries| == 0 then path
    else
      var last := entries[|entries| - 1];
      Step(Substituted(path, entries[..|entries| - 1]), last.0, last.1)
  }

  /** The specification of buildUrl; `params` stands for the entries of the
      params object, None when it is not given. */
  function Built(path: string, params: Option<seq<(string, ParamValue)>>): string {
    if params.None? then path else Substituted(path, params.value)
  }

  /** buildUrl as a loop over the entries that reassigns the url. */
  method BuildUrl(path: string, params: Option<seq<(string, ParamValue)>>) returns (url: string)
    ensures url == Built(path, params)
    ensures params.None? ==> url == path
  {
    url := path;
    if params.Some? {
      var entries := params.value;
      var i := 0;
      while i < |entries|
        invariant 0 <= i <= |entries|
        invariant url == Substituted(path, entries[..i])
      {
        var (key, value) := entries[i];
        if Includes(url, Placeholder(key)) {
          url := ReplaceFirst(url, Placeholder(key), ValueString(value));
        }
        assert entries[..i + 1][..i] == entries[..i];
        i := i + 1;
      }
      assert entries[..i] == entries;
    }
  }

  /** A plain value (no "$") replaces exactly the first ":key" and nothing
      else. */
  lemma StepLiteral(url: string, key: string, value: ParamValue)
    requires '$' !in ValueString(value)
    requires Includes(url, Placeholder(key))
    ensures
      var k := IndexOf(url, Placeholder(key));
      Step(url, key, value) == url[..k] + ValueString(value) + url[k + |key| + 1..]
  {
    ReplaceFirstLiteral(url, Placeholder(key), ValueString(value));
  }

  /** When none of the keys' placeholders occurs in the path, the path comes
      back unchanged; in particular placeholders without a key survive. */
  lemma {:induction false} AbsentKeysNoEffect(path: string, entries: seq<(string, ParamValue)>)
    requires forall i :: 0 <= i < |entries| ==> !Includes(path, Placeholder(entries[i].0))
    ensures Substituted(path, entries) == path
    decreases |entries|
  {
    if |entries| > 0 {
      AbsentKeysNoEffect(path, entries[..|entries| - 1]);
    }
  }

  /** Only the first occurrence is replaced: past a prefix without ':', the
      first ":key" becomes the value and the rest of the path, any later
      ":key" included, is kept as it is. */
  lemma FirstOccurrenceOnly(pre: string, key: string, rest: string, value: ParamValue)
    requires ':' !in pre && '$' !in ValueString(value)
    ensures Built(pre + Placeholder(key) + rest, Some([(key, value)])) == pre + ValueString(value) + rest
  {
    var p := Placeholder(key);
    var url := pre + p + rest;
    assert url[|pre|..|pre| + |p|] == p;
    forall j | 0 <= j < |pre| ensures !OccursAt(url, p, j) {
      assert url[j] == pre[j];
      assert pre[j] in pre;
    }
    IndexOfFirst(url, p, |pre|);
    StepLiteral(url, key, value);
    assert [(key, value)][..0] == [];
    assert Substituted(url, [(key, value)]) == Step(url, key, value);
    assert url[..|pre|] == pre && url[|pre| + |key| + 1..] == rest;
    assert Step(url, key, value) == pre + ValueString(value) + rest;
  }

  /** Matching is on the raw text: key "id" rewrites the start of ":idx",
      leaving "x" behind. */
  lemma PrefixPlaceholderRewritten(pre: string, key: string, ext: string, value: ParamValue)
    requires ':' !in pre && '$' !in ValueString(value)
    ensures Built(pre + Placeholder(key + ext), Some([(key, value)])) == pre + ValueString(value) + ext
  {
    assert pre + Placeholder(key + ext) == pre + Placeholder(key) + ext;
    FirstOccurrenceOnly(pre, key, ext, value);
  }

  /** A "$&" in a value is replace's pattern for the matched text, so the
      placeholder is put back rather than replaced. */
  lemma DollarPatternExpands()
    ensures Built("/:id", Some([("id", S("$&"))])) == "/:id"
  {
    var url := "/:id";
    var p := Placeholder("id");
    assert OccursAt(url, p, 1);
    assert !OccursAt(url, p, 0) by { assert url[0] != p[0]; }
    IndexOfFirst(url, p, 1);
    assert Expand("$&", p, url[..1], url[4..]) == p + Expand("", p, url[..1], url[4..]);
    assert [("id", S("$&"))][..0] == [];
  }

  /** A parameter whose placeholder is missing leaves the url as it was. */
  lemma MissingPlaceholderNoEffect(url: string, key: string, value: ParamValue)
    requires !Includes(url, Placeholder(key))
    ensures Substituted(url, [(key, value)]) == url
  {
    assert [(key, value)][..0] == [];
  }
}
