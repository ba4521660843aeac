/**
 * The fingerprint table and the change test of src/urls.rs.
 *
 * The GET of a page (`contents`) and SHA-1 are outside the model: both are
 * parameters. A digest is a value of the subset type HexDigest, the 40
 * lower-case hex digits that `Sha1::result_str` produces.
 */
module Urls {
  import opened Wrappers

  predicate IsHexDigit(c: char) {
    '0' <= c <= '9' || 'a' <= c <= 'f'
  }

  /** The hex text of a SHA-1 digest (FIPS 180-4): 160 bits, 40 hex digits. */
  type HexDigest = s: string | |s| == 40 && forall i | 0 <= i < |s| :: IsHexDigit(s[i])
    witness "0000000000000000000000000000000000000000"

  /** The body of a page fetched with one GET, or the transport's error text. */
  type Fetch = string -> Result<string, string>

  /** SHA-1 of a text, in hex: deterministic, otherwise unknown. */
  type Digest = string -> HexDigest

  /**
   * `hash_list`: one entry per URL, each with the empty fingerprint.
   * Inserting a URL twice overwrites the same entry.
   */
  method HashList(urls: seq<string>) returns (list: map<string, string>)
    ensures list.Keys == set u | u in urls
    ensures forall u | u in list :: list[u] == ""
    ensures |list| <= |urls|
    ensures (forall i, j | 0 <= i < j < |urls| :: urls[i] != urls[j]) ==> |list| == |urls|
  {
    list := map[];
    for i := 0 to |urls|
      invariant list.Keys == set u | u in urls[..i]
      invariant forall u | u in list :: list[u] == ""
      invariant |list| <= i
      invariant (forall p, q | 0 <= p < q < |urls| :: urls[p] != urls[q]) ==> |list| == i
    {
      assert urls[..i + 1] == urls[..i] + [urls[i]];
      list := list[urls[i] := ""];
    }
    assert urls[..|urls|] == urls;
  }

  /**
   * `compare`: fetch the page, digest its body and test the digest against
   * the stored fingerprint. None means "unchanged"; Some carries the new
   * fingerprint. A failed fetch is returned before any digest is taken.
   */
  function Compare(fetch: Fetch, digest: Digest, url: string, hash: string): (r: Result<Option<HexDigest>, string>)
    ensures r.Err? <==> fetch(url).Err?
    ensures r.Err? ==> r.error == fetch(url).error
    ensures r == Ok(None) <==> fetch(url).Ok? && digest(fetch(url).value) == hash
    ensures r.Ok? && r.value.Some? ==> r.value.value == digest(fetch(url).value)
    ensures r.Ok? && r.value.Some? ==> r.value.value != hash
  {
    match fetch(url)
    case Err(e) => Err(e)
    case Ok(contents) =>
      var newHash := digest(contents);
      if newHash == hash then Ok(None) else Ok(Some(newHash))
  }

  /** Comparing the same content against the digest a compare just returned finds no change. */
  lemma CompareAgainstOwnDigest(fetch: Fetch, digest: Digest, url: string, hash: string)
    requires Compare(fetch, digest, url, hash).Ok? && Compare(fetch, digest, url, hash).value.Some?
    ensures Compare(fetch, digest, url, Compare(fetch, digest, url, hash).value.value) == Ok(None)
  {
  }

  /** The empty fingerprint never matches: a successful fetch against "" always reports a change. */
  lemma CompareAgainstEmpty(fetch: Fetch, digest: Digest, url: string)
    requires fetch(url).Ok?
    ensures Compare(fetch, digest, url, "") == Ok(Some(digest(fetch(url).value)))
  {
    var d := digest(fetch(url).value);
    assert |d| == 40;
  }
}
