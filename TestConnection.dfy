/**
 * scripts/test-connection.js: the configured port, the hostname suggestions
 * tried when DNS fails, the alternative ports tried when the port is closed,
 * and the hint chosen for an FTP error message. Sockets, DNS and FTP are not
 * modelled.
 */
module TestConnection {
  import opened Wrappers
  import opened JsText
  import opened Hostnames

  /** A JavaScript string operand of `||`: `undefined` and `''` are falsy. */
  predicate Supplied(v: Option<string>) { v.Some? && v.value != "" }

  /**
   * `parseInt(process.env.GGSERVERS_PORT || process.argv[5] || '21')`; `None`
   * stands for `NaN`.
   */
  function ResolvePort(env: Option<string>, argv: Option<string>): (port: Option<int>)
    ensures !Supplied(env) && !Supplied(argv) ==> port == Some(21)
  {
    var text := if Supplied(env) then env.value else if Supplied(argv) then argv.value else "21";
    assert NatToString(2) == "2";
    assert IntToString(21) == NatToString(2) + "1" == "21";
    ParseIntToString(21);
    ParseInt(text)
  }

  /** A port written in decimal is read back as that port, the environment taking precedence. */
  lemma WrittenPortIsUsed(n: int, argv: Option<string>)
    ensures ResolvePort(Some(IntToString(n)), argv) == Some(n)
    ensures ResolvePort(None, Some(IntToString(n))) == Some(n)
    ensures ResolvePort(Some(""), Some(IntToString(n))) == Some(n)
  {
    ParseIntToString(n);
  }

  /** The `suggestions` array. */
  function Suggestions(h: string): (s: seq<string>)
    ensures |s| == 3
    ensures s[0] == StripScheme(h) && s[1] == h + GgDomain
    ensures !Includes(h, GgDomain + GgDomain) ==> s[2] == h
    ensures Includes(h, GgDomain + GgDomain) ==> |s[2]| == |h| - |GgDomain|
    ensures Includes(h, GgDomain + GgDomain) ==>
      var i := IndexOf(h, GgDomain + GgDomain).value;
      s[2] == h[..i] + GgDomain + h[i + |GgDomain + GgDomain|..]
  {
    [StripScheme(h), h + GgDomain, ReplaceFirst(h, GgDomain + GgDomain, GgDomain)]
  }

  /** The doubled domain that the third suggestion repairs. */
  lemma DoubledDomainRepaired(x: string)
    requires forall i :: 0 <= i < |x| ==> x[i] != '.'
    ensures Suggestions(x + GgDomain + GgDomain)[2] == x + GgDomain
  {
    var d := GgDomain + GgDomain;
    assert x + GgDomain + GgDomain == x + d + "";
    IndexOfAfterPrefix(x, d, "");
    assert (x + d + "")[..|x|] == x;
    assert (x + d + "")[|x| + |d|..] == "";
  }

  /**
   * `CONFIG.port === 21 ? [22, 2121, 8021] : [21, 2121, 8021]`; a `NaN` port
   * is not `21`.
   */
  function AltPorts(port: Option<int>): (ports: seq<int>)
    ensures |ports| == 3
    ensures 2121 in ports && 8021 in ports
    ensures port.Some? ==> (port.value in ports <==> port.value == 2121 || port.value == 8021)
    ensures port != Some(21) ==> 21 in ports
    ensures 22 in ports <==> port == Some(21)
  {
    if port == Some(21) then [22, 2121, 8021] else [21, 2121, 8021]
  }

  /** When the default port is closed, port 22 is tried first. */
  lemma DefaultPortAlternatives()
    ensures AltPorts(ResolvePort(None, None)) == [22, 2121, 8021]
  {
  }

  /** The hint printed after an FTP error. */
  datatype FtpHint = AuthenticationHint | TimeoutHint | NoHint

  /** `includes('530')` is tested before `includes('timeout')`. */
  function ClassifyFtpError(message: string): (hint: FtpHint)
    ensures hint == AuthenticationHint <==> Includes(message, "530")
    ensures hint == TimeoutHint <==> !Includes(message, "530") && Includes(message, "timeout")
    ensures hint == NoHint <==> !Includes(message, "530") && !Includes(message, "timeout")
  {
    if Includes(message, "530") then AuthenticationHint
    else if Includes(message, "timeout") then TimeoutHint
    else NoHint
  }

  /** A message with `530` anywhere gets the authentication hint, whatever else (a timeout) it mentions. */
  lemma AuthenticationFirst(before: string, after: string)
    ensures ClassifyFtpError(before + "530" + after) == AuthenticationHint
  {
    var m := before + "530" + after;
    assert m[|before|..|before| + 3] == "530";
    assert OccursAt(m, "530", |before|);
  }
}
