/**
 * scripts/check-hostname.js: when the given hostname does not resolve, four
 * alternative spellings are built and every one that differs from the input is
 * probed. The DNS lookups are not modelled.
 */
module CheckHostname {
  import opened JsText
  import opened Hostnames

  /**
   * `hostname.replace('.ggservers.com', '') + '.ggservers.com'`: the first
   * occurrence of the domain, if any, is moved to the end.
   */
  function WithDomain(h: string): (r: string)
    ensures EndsWith(r, GgDomain)
    ensures !Includes(h, GgDomain) ==> r == h + GgDomain
    ensures Includes(h, GgDomain) ==>
      var i := IndexOf(h, GgDomain).value;
      r == h[..i] + h[i + |GgDomain|..] + GgDomain
  {
    var r := ReplaceFirst(h, GgDomain, "") + GgDomain;
    assert r[|r| - |GgDomain|..] == GgDomain;
    r
  }

  /** `'mc-' + hostname.replace(/^mc-/, '').replace('.ggservers.com', '') + '.ggservers.com'`. */
  function McWithDomain(h: string): (r: string)
    ensures StartsWith(r, "mc-") && EndsWith(r, GgDomain)
    ensures !Includes(StripMcPrefix(h), GgDomain) ==> r == "mc-" + StripMcPrefix(h) + GgDomain
  {
    var r := "mc-" + ReplaceFirst(StripMcPrefix(h), GgDomain, "") + GgDomain;
    assert r[..3] == "mc-";
    assert r[|r| - |GgDomain|..] == GgDomain;
    r
  }

  /** The `alternatives` array. */
  function Alternatives(h: string): (alts: seq<string>)
    ensures |alts| == 4
    ensures alts[0] == StripScheme(h) && alts[2] == h + GgDomain
    ensures EndsWith(alts[1], GgDomain)
    ensures StartsWith(alts[3], "mc-") && EndsWith(alts[3], GgDomain)
    ensures alts[1] == WithDomain(h) && alts[3] == McWithDomain(h)
  {
    [StripScheme(h), WithDomain(h), h + GgDomain, McWithDomain(h)]
  }

  /** A leading `mc-` already on the input is not doubled. */
  lemma McPrefixNotDoubled(x: string)
    requires !StartsWith(x, "mc-")
    ensures McWithDomain("mc-" + x) == McWithDomain(x)
    ensures McWithDomain(x) == "mc-" + ReplaceFirst(x, GgDomain, "") + GgDomain
  {
    StripMcOfPrefixed(x);
  }

  /** `alternatives.forEach((alt) => { if (alt === hostname) return; … })`: the names probed, in order. */
  function Probed(h: string, alts: seq<string>): (probed: seq<string>)
    ensures forall a :: a in probed <==> a in alts && a != h
    ensures |probed| <= |alts|
  {
    if |alts| == 0 then []
    else (if alts[0] == h then [] else [alts[0]]) + Probed(h, alts[1..])
  }

  /** The alternatives of `h` that are probed: those that differ from `h`. */
  function ProbeCandidates(h: string): (c: seq<string>)
    ensures forall a :: a in c <==> a in Alternatives(h) && a != h
    ensures |c| <= 4
  {
    Probed(h, Alternatives(h))
  }

  /** Every candidate with a scheme, a missing domain or a missing `mc-` prefix is probed. */
  lemma ProbesWhatDiffers(h: string)
    ensures |ProbeCandidates(h)| <= 4
    ensures h + GgDomain in ProbeCandidates(h)
    ensures (StartsWith(h, "http://") || StartsWith(h, "https://")) ==> StripScheme(h) in ProbeCandidates(h)
  {
    assert h + GgDomain != h by {
      assert |h + GgDomain| != |h|;
    }
  }

  /** Replacing the domain in a one-label name followed by the domain leaves the label. */
  lemma DomainRemovedFromOneLabel(x: string)
    requires forall i :: 0 <= i < |x| ==> x[i] != '.'
    ensures ReplaceFirst(x + GgDomain, GgDomain, "") == x
  {
    var h := x + GgDomain;
    assert h == x + GgDomain + "";
    IndexOfAfterPrefix(x, GgDomain, "");
    assert h[..|x|] == x;
    assert h[|x| + |GgDomain|..] == "";
  }

  /**
   * For a one-label name `x` (no dot), the second alternative of
   * `x.ggservers.com` is the input itself, so it is not probed.
   */
  lemma SecondAlternativeSkipped(x: string)
    requires forall i :: 0 <= i < |x| ==> x[i] != '.'
    ensures Alternatives(x + GgDomain)[1] == x + GgDomain
    ensures Alternatives(x + GgDomain)[1] !in ProbeCandidates(x + GgDomain)
  {
    DomainRemovedFromOneLabel(x);
    assert WithDomain(x + GgDomain) == x + GgDomain;
  }

  lemma SecondAlternativeSkippedExample()
    ensures Alternatives("x.ggservers.com")[1] !in ProbeCandidates("x.ggservers.com")
  {
    assert "x.ggservers.com" == "x" + GgDomain;
    SecondAlternativeSkipped("x");
  }
}
