/**
 * The URL helpers of the browser's API client (`api.js`): the base address
 * with its trailing slash removed, the address of a request path, and the
 * query string built from a parameter object. `encodeURIComponent` (applied
 * to a key, or to a value turned into text) is a parameter.
 */
module Api {
  import opened Common
  import opened Text

  /** `getBaseUrl`: the configured address (empty when missing) with one trailing "/" removed. */
  function StripTrailingSlash(configured: Option<string>): (base: string)
    ensures configured.None? ==> base == ""
    ensures configured.Some? && (configured.value == [] || configured.value[|configured.value| - 1] != '/') ==>
      base == configured.value
    ensures configured.Some? && configured.value != [] && configured.value[|configured.value| - 1] == '/' ==>
      base + "/" == configured.value
  {
    var url := if configured.Some? then configured.value else "";
    if url != [] && url[|url| - 1] == '/' then url[..|url| - 1] else url
  }

  /** Only one slash goes: a base written with two keeps one. */
  lemma StripOnlyOneSlash(url: string)
    ensures StripTrailingSlash(Some(url + "//")) == url + "/"
  {
    assert (url + "//")[..|url| + 1] == url + "/";
  }

  /** `/^https?:/i`: the path starts with "http:" or "https:", in any case. */
  predicate HasScheme(path: string)
  {
    StartsWith(Lower(path), "http:") || StartsWith(Lower(path), "https:")
  }

  /**
   * `buildUrl`: an empty path gives the base; an absolute http(s) address is
   * used as it is; any other path is appended to the base with one leading
   * "/" added when missing.
   */
  function BuildUrl(base: string, path: string): (url: string)
    ensures path == "" ==> url == base
    ensures path != "" && HasScheme(path) ==> url == path
    ensures path != "" && !HasScheme(path) && path[0] == '/' ==> url == base + path
    ensures path != "" && !HasScheme(path) && path[0] != '/' ==> url == base + "/" + path
    ensures path != "" && !HasScheme(path) ==> |url| > |base| && url[..|base|] == base && url[|base|] == '/'
  {
    if path == "" then base
    else if HasScheme(path) then path
    else if path[0] == '/' then base + path
    else base + "/" + path
  }

  /** Writing the leading "/" of a relative path oneself gives the same address. */
  lemma LeadingSlashOptional(base: string, path: string)
    requires path != "" && path[0] != '/' && !HasScheme(path)
    ensures BuildUrl(base, "/" + path) == BuildUrl(base, path)
  {
    var p := "/" + path;
    assert Lower(p)[0] == '/';
    assert !HasScheme(p);
    assert base + p == base + "/" + path;
  }

  /** A JavaScript value placed in a query parameter object. */
  datatype JsValue = Undefined | Null | Str(s: string) | Num(n: real) | Bool(b: bool)

  /** Kept in the query: anything but undefined, null and the empty string; 0 and false count. */
  predicate Present(v: JsValue)
  {
    !v.Undefined? && !v.Null? && v != Str("")
  }

  /** The entries kept, in entry order. */
  function KeptEntries(entries: seq<(string, JsValue)>): (kept: seq<(string, JsValue)>)
    ensures |kept| <= |entries|
    ensures forall i :: 0 <= i < |kept| ==> kept[i] in entries && Present(kept[i].1)
    ensures forall i :: 0 <= i < |entries| && Present(entries[i].1) ==> entries[i] in kept
  {
    Filter(entries, (e: (string, JsValue)) => Present(e.1))
  }

  /** `key=value` for each kept entry, both encoded. */
  function Pairs(kept: seq<(string, JsValue)>, encodeKey: string -> string, encodeValue: JsValue -> string)
    : (pairs: seq<string>)
    ensures |pairs| == |kept|
    ensures forall i :: 0 <= i < |kept| ==> pairs[i] == encodeKey(kept[i].0) + "=" + encodeValue(kept[i].1)
  {
    seq(|kept|, i requires 0 <= i < |kept| => encodeKey(kept[i].0) + "=" + encodeValue(kept[i].1))
  }

  /** `buildQuery`: empty when nothing is kept, else "?" and the pairs joined by "&". */
  function BuildQuery(entries: seq<(string, JsValue)>, encodeKey: string -> string, encodeValue: JsValue -> string)
    : (q: string)
    ensures q == "" <==> forall i :: 0 <= i < |entries| ==> !Present(entries[i].1)
    ensures q != "" ==> q[0] == '?'
  {
    var kept := KeptEntries(entries);
    if kept == [] then ""
    else
      assert Present(kept[0].1);
      "?" + Join(Pairs(kept, encodeKey, encodeValue), "&")
  }

  /**
   * With encodings that never produce "&" (as `encodeURIComponent` does not),
   * the query splits back on "&" into exactly the kept pairs, in entry order.
   */
  lemma QuerySplitsIntoPairs(entries: seq<(string, JsValue)>, encodeKey: string -> string,
                             encodeValue: JsValue -> string)
    requires forall k :: '&' !in encodeKey(k)
    requires forall v :: '&' !in encodeValue(v)
    requires exists i :: 0 <= i < |entries| && Present(entries[i].1)
    ensures var q := BuildQuery(entries, encodeKey, encodeValue);
      q != "" && Split(q[1..], '&') == Pairs(KeptEntries(entries), encodeKey, encodeValue)
  {
    var kept := KeptEntries(entries);
    var pairs := Pairs(kept, encodeKey, encodeValue);
    var i :| 0 <= i < |entries| && Present(entries[i].1);
    assert entries[i] in kept;
    forall j | 0 <= j < |pairs| ensures '&' !in pairs[j] {
      var k := encodeKey(kept[j].0);
      var v := encodeValue(kept[j].1);
      assert pairs[j] == k + "=" + v;
      assert '&' !in k && '&' !in v;
    }
    assert "&" == ['&'];
    SplitJoin(pairs, '&');
    var q := BuildQuery(entries, encodeKey, encodeValue);
    assert q == "?" + Join(pairs, "&");
    assert q[1..] == Join(pairs, "&");
  }
}
