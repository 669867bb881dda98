/**
 * Hostname rewriting shared by scripts/check-hostname.js and
 * scripts/test-connection.js: the hosting provider's domain and the two
 * anchored regular-expression replacements the scripts apply.
 */
module Hostnames {
  import opened JsText

  /** The provider's domain suffix, `'.ggservers.com'`. */
  const GgDomain: string := ".ggservers.com"

  /**
   * `h.replace(/^https?:\/\//, '')`: one leading `http://` or `https://` is
   * removed and nothing else changes.
   */
  function StripScheme(h: string): (r: string)
    ensures EndsWith(h, r)
    ensures r == h <==> !StartsWith(h, "http://") && !StartsWith(h, "https://")
  {
    if StartsWith(h, "https://") then h[8..]
    else if StartsWith(h, "http://") then h[7..]
    else h
  }

  lemma StripHttp(x: string)
    ensures StripScheme("http://" + x) == x
  {
    assert !StartsWith("http://" + x, "https://") by {
      if 8 <= |"http://" + x| {
        assert ("http://" + x)[..8][4] == ':';
      }
    }
    assert ("http://" + x)[7..] == x;
  }

  lemma StripHttps(x: string)
    ensures StripScheme("https://" + x) == x
  {
    assert ("https://" + x)[8..] == x;
  }

  /** `h.replace(/^mc-/, '')`. */
  function StripMcPrefix(h: string): (r: string)
    ensures StartsWith(h, "mc-") ==> "mc-" + r == h
    ensures !StartsWith(h, "mc-") ==> r == h
  {
    if StartsWith(h, "mc-") then h[3..] else h
  }

  lemma StripMcOfPrefixed(x: string)
    ensures StripMcPrefix("mc-" + x) == x
  {
    assert ("mc-" + x)[3..] == x;
  }
}
