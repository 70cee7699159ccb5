/**
 * `toS3ImageUrl` (src/shared/utils/image.ts): the public URL of an uploaded
 * object. The configured base URL and `encodeURI` are parameters.
 */
module ImageUrl {
  import opened Wrappers

  /** `toS3ImageUrl(key)`: undefined for a missing or empty key, else `${base}/${encodeURI(key)}`. */
  function ToS3ImageUrl(base: string, key: Option<string>, encodeUri: string -> string): (url: Option<string>)
    ensures url.None? <==> key.None? || key.value == ""
    ensures url.Some? ==> url.value == base + "/" + encodeUri(key.value)
  {
    if key.None? || key.value == "" then None else Some(base + "/" + encodeUri(key.value))
  }

  /** Every URL built lies under the base: it starts with the base and a slash. */
  lemma UrlUnderBase(base: string, key: Option<string>, encodeUri: string -> string)
    requires ToS3ImageUrl(base, key, encodeUri).Some?
    ensures base + "/" <= ToS3ImageUrl(base, key, encodeUri).value
  {
    var url := ToS3ImageUrl(base, key, encodeUri).value;
    assert url == (base + "/") + encodeUri(key.value);
  }

  /** With an injective encoder, different keys name different objects. */
  lemma UrlInjective(base: string, k1: string, k2: string, encodeUri: string -> string)
    requires forall x, y :: encodeUri(x) == encodeUri(y) ==> x == y
    requires ToS3ImageUrl(base, Some(k1), encodeUri) == ToS3ImageUrl(base, Some(k2), encodeUri)
    ensures k1 == k2
  {
    if k1 != "" {
      var u := ToS3ImageUrl(base, Some(k1), encodeUri).value;
      var n := |base| + 1;
      assert encodeUri(k1) == u[n..] == encodeUri(k2);
    }
  }
}
