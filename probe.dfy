/**
  One probe of one link (`LinkBot.check_link_with_curl` in bot.py): the
  proxy descriptor is parsed into curl's `-x` argument, curl's output is
  split into body and status code, and the status code and body are
  classified into a pass/fail verdict and a one-line message.

  The curl subprocess itself is an oracle `Curl`: given the URL and the
  proxy argument it either completes with some standard output, runs into
  the subprocess timeout, or fails with an error text.
 */
module Probe {
  import opened Wrappers
  import opened Text

  // ---------------------------------------------------------------------------
  // Proxy descriptors `host:port:user:password`

  datatype ProxyConnection = ProxyConnection(host: string, port: string, user: string, password: string)

  /**
    Splits the descriptor on ':'; with fewer than four parts there is no
    proxy (the probe silently goes direct), and parts beyond the fourth are
    ignored.
   */
  function ParseProxy(config: string): (r: Option<ProxyConnection>)
    ensures r.Some? <==> |Split(config, ':')| >= 4
    ensures r.Some? ==> PlainFields(r.value)
  {
    var parts := Split(config, ':');
    if |parts| >= 4 then Some(ProxyConnection(parts[0], parts[1], parts[2], parts[3]))
    else None
  }

  /** The value curl receives after `-x`: `user:password@host:port`. */
  function ProxyUrl(p: ProxyConnection): string
  {
    p.user + ":" + p.password + "@" + p.host + ":" + p.port
  }

  /** The descriptor written back in its `host:port:user:password` form. */
  function Descriptor(p: ProxyConnection): string
  {
    p.host + ":" + p.port + ":" + p.user + ":" + p.password
  }

  /** A field may be put into a descriptor only if it holds no ':'. */
  predicate PlainFields(p: ProxyConnection)
  {
    ':' !in p.host && ':' !in p.port && ':' !in p.user && ':' !in p.password
  }

  /** A proxy is used exactly when the descriptor has at least three ':'. */
  lemma ParseProxyDefined(config: string)
    ensures ParseProxy(config).Some? <==> Count(config, ':') >= 3
  {
    SplitCount(config, ':');
  }

  /**
    Whatever is parsed is the descriptor's first four fields: they hold no
    ':', the descriptor starts with them, and it is nothing more when it
    has exactly three ':'.
   */
  lemma ParsedDescriptorShape(config: string)
    requires ParseProxy(config).Some?
    ensures PlainFields(ParseProxy(config).value)
    ensures StartsWith(config, Descriptor(ParseProxy(config).value))
    ensures Count(config, ':') == 3 ==> config == Descriptor(ParseProxy(config).value)
    ensures Count(config, ':') > 3 ==> StartsWith(config, Descriptor(ParseProxy(config).value) + ":")
  {
    var parts := Split(config, ':');
    var p := ParseProxy(config).value;
    assert ':' !in parts[0] && ':' !in parts[1] && ':' !in parts[2] && ':' !in parts[3];
    SplitThenJoin(config, ':');
    SplitCount(config, ':');
    var tail := if |parts| == 4 then "" else ":" + Join(parts[4..], ":");
    var j3 := Join(parts[3..], ":");
    assert j3 == parts[3] + tail by {
      if |parts| > 4 {
        assert parts[3..][1..] == parts[4..];
      }
    }
    var j2 := Join(parts[2..], ":");
    assert j2 == parts[2] + ":" + j3 by {
      assert parts[2..][1..] == parts[3..];
    }
    var j1 := Join(parts[1..], ":");
    assert j1 == parts[1] + ":" + j2 by {
      assert parts[1..][1..] == parts[2..];
    }
    assert config == parts[0] + ":" + j1;
    DescriptorThenTail(p, tail, config);
  }

  /** Re-associates a descriptor written field after field. */
  lemma DescriptorThenTail(p: ProxyConnection, tail: string, s: string)
    requires s == p.host + ":" + (p.port + ":" + (p.user + ":" + (p.password + tail)))
    ensures s == Descriptor(p) + tail
    ensures StartsWith(s, Descriptor(p))
    ensures |tail| > 0 && tail[0] == ':' ==> StartsWith(s, Descriptor(p) + ":")
  {
    assert s == Descriptor(p) + tail;
    assert s[..|Descriptor(p)|] == Descriptor(p);
    if |tail| > 0 && tail[0] == ':' {
      assert s[..|Descriptor(p)| + 1] == Descriptor(p) + ":";
    }
  }

  /** Parsing a descriptor built from plain fields gives those fields back. */
  lemma ParseProxyRoundTrip(p: ProxyConnection)
    requires PlainFields(p)
    ensures ParseProxy(Descriptor(p)) == Some(p)
  {
    var s3 := p.user + ":" + p.password;
    SplitWithoutSeparator(p.password, ':');
    SplitAfterPiece(p.user, ':', p.password);
    assert Split(s3, ':') == [p.user, p.password];
    var s2 := p.port + ":" + s3;
    SplitAfterPiece(p.port, ':', s3);
    assert Split(s2, ':') == [p.port, p.user, p.password];
    var s1 := p.host + ":" + s2;
    SplitAfterPiece(p.host, ':', s2);
    assert Split(s1, ':') == [p.host, p.port, p.user, p.password];
    assert Descriptor(p) == s1;
  }

  /** Fields after the fourth never change the proxy that is used. */
  lemma ParseProxyIgnoresExtra(p: ProxyConnection, extra: string)
    requires PlainFields(p)
    ensures ParseProxy(Descriptor(p) + ":" + extra) == Some(p)
  {
    var s4 := p.password + ":" + extra;
    SplitAfterPiece(p.password, ':', extra);
    var s3 := p.user + ":" + s4;
    SplitAfterPiece(p.user, ':', s4);
    var s2 := p.port + ":" + s3;
    SplitAfterPiece(p.port, ':', s3);
    var s1 := p.host + ":" + s2;
    SplitAfterPiece(p.host, ':', s2);
    assert Split(s1, ':') == [p.host, p.port, p.user, p.password] + Split(extra, ':');
    assert Descriptor(p) + ":" + extra == s1;
  }

  // ---------------------------------------------------------------------------
  // curl's output: `-w '%{http_code}'` appends the three-digit status code

  datatype Response = Response(status: string, body: string)

  /** The last three characters are the status, the rest is the body. */
  function SplitOutput(stdout: string): (r: Response)
    ensures |r.status| == 3
    ensures |stdout| >= 3 ==> r.body + r.status == stdout
    ensures |stdout| < 3 ==> r == Response("000", "")
  {
    if |stdout| >= 3 then
      Response(stdout[|stdout| - 3..], if |stdout| > 3 then stdout[..|stdout| - 3] else "")
    else
      Response("000", "")
  }

  // ---------------------------------------------------------------------------
  // Display truncation

  const DisplayLimit := 50

  /** The URL as shown in a message: at most 50 characters, then "...". */
  function DisplayUrl(url: string): (d: string)
    ensures |d| <= DisplayLimit + 3
    ensures |url| <= DisplayLimit ==> d == url
    ensures |url| > DisplayLimit ==> |d| == DisplayLimit + 3 && StartsWith(url, d[..DisplayLimit]) && d[DisplayLimit..] == "..."
  {
    if |url| > DisplayLimit then url[..DisplayLimit] + "..." else url
  }

  // ---------------------------------------------------------------------------
  // Classification

  /** What one probe found; only `Ok` passes. */
  datatype Outcome =
    | Ok
    | MaskedChallenge
    | NotFound
    | BadGateway
    | CloudflareBlocked
    | Forbidden
    | CloudflareChallenge
    | ServiceUnavailable
    | ConnectionFailed
    | UnexpectedStatus(code: string)
    | Timeout
    | Error(detail: string)
  {
    predicate Passed()
    {
      Ok?
    }
  }

  /** A 200 page that is really a Cloudflare interstitial. */
  predicate MaskedChallengePage(lowered: string)
  {
    Contains(lowered, "cloudflare") && Contains(lowered, "ray id")
  }

  /** The four indicators that a 403 comes from Cloudflare. */
  predicate CloudflareBlockPage(lowered: string)
  {
    || Contains(lowered, "sorry, you have been blocked")
    || (Contains(lowered, "attention required!") && Contains(lowered, "cloudflare"))
    || Contains(lowered, "cf-error-details")
    || Contains(lowered, "cf-wrapper")
  }

  /** The indicators that a 503 is a Cloudflare browser check. */
  predicate CloudflareChallengePage(lowered: string)
  {
    Contains(lowered, "cloudflare")
    && (Contains(lowered, "checking your browser") || Contains(lowered, "cf-"))
  }

  /**
    The codes bot.py gives a branch of their own: the HTTP status codes
    200, 404, 502, 403 and 503, plus curl's 000 for no response at all.
   */
  predicate KnownStatus(status: string)
  {
    status in {"200", "404", "502", "403", "503", "000"}
  }

  /**
    The status code decides first; the body markers are consulted only
    inside the 200, 403 and 503 branches.
   */
  function Classify(status: string, body: string): (o: Outcome)
    ensures o.Passed() <==> status == "200" && !MaskedChallengePage(Lower(body))
    ensures o.MaskedChallenge? <==> status == "200" && MaskedChallengePage(Lower(body))
    ensures o.NotFound? <==> status == "404"
    ensures o.BadGateway? <==> status == "502"
    ensures o.CloudflareBlocked? <==> status == "403" && CloudflareBlockPage(Lower(body))
    ensures o.Forbidden? <==> status == "403" && !CloudflareBlockPage(Lower(body))
    ensures o.CloudflareChallenge? <==> status == "503" && CloudflareChallengePage(Lower(body))
    ensures o.ServiceUnavailable? <==> status == "503" && !CloudflareChallengePage(Lower(body))
    ensures o.ConnectionFailed? <==> status == "000"
    ensures o.UnexpectedStatus? <==> !KnownStatus(status)
    ensures o.UnexpectedStatus? ==> o.code == status
    ensures !o.Timeout? && !o.Error?
  {
    var lowered := Lower(body);
    if status == "200" then
      if MaskedChallengePage(lowered) then MaskedChallenge else Ok
    else if status == "404" then NotFound
    else if status == "502" then BadGateway
    else if status == "403" then
      if CloudflareBlockPage(lowered) then CloudflareBlocked else Forbidden
    else if status == "503" then
      if CloudflareChallengePage(lowered) then CloudflareChallenge else ServiceUnavailable
    else if status == "000" then ConnectionFailed
    else UnexpectedStatus(status)
  }

  // ---------------------------------------------------------------------------
  // Messages

  /** The leading mark of a message: only a passed probe gets the check mark. */
  function Icon(o: Outcome): (icon: string)
    ensures |icon| > 0
    ensures icon[0] == '✅' <==> o.Passed()
  {
    match o
    case Ok => "✅"
    case Forbidden => "🚫"
    case ServiceUnavailable => "⚠️"
    case UnexpectedStatus(_) => "⚠️"
    case _ => "❌"
  }

  function Reason(o: Outcome): string
  {
    match o
    case Ok => "OK (200)"
    case MaskedChallenge => "Cloudflare challenge"
    case NotFound => "Not Found (404)"
    case BadGateway => "Bad Gateway (502)"
    case CloudflareBlocked => "Cloudflare blocked (403)"
    case Forbidden => "Forbidden (403)"
    case CloudflareChallenge => "Cloudflare challenge (503)"
    case ServiceUnavailable => "Service Unavailable (503)"
    case ConnectionFailed => "Connection failed"
    case UnexpectedStatus(code) => "Status: " + code
    case Timeout => "Timeout"
    case Error(detail) => "Error: " + detail
  }

  /** `<icon> <display url> (<proxy label>) - <reason>` */
  function Message(o: Outcome, displayUrl: string, proxyName: string): string
  {
    Icon(o) + " " + displayUrl + " (" + proxyName + ") - " + Reason(o)
  }

  /** The first character of a message tells a pass from a failure. */
  lemma MessageMarksPass(o: Outcome, displayUrl: string, proxyName: string)
    ensures |Message(o, displayUrl, proxyName)| > 0
    ensures Message(o, displayUrl, proxyName)[0] == '✅' <==> o.Passed()
  {
    var m := Message(o, displayUrl, proxyName);
    assert m[0] == Icon(o)[0];
  }

  // ---------------------------------------------------------------------------
  // The probe

  /** What the curl subprocess came back with. */
  datatype CurlResult = Completed(stdout: string) | TimedOut | Failed(error: string)

  /** curl run on a URL with an optional `-x` proxy argument. */
  type Curl = (string, Option<string>) -> CurlResult

  /** The `-x` argument: present only for a non-empty, well-formed descriptor. */
  function ProxyArgument(proxyConfig: Option<string>): (r: Option<string>)
    ensures r.Some? <==> proxyConfig.Some? && proxyConfig.value != "" && ParseProxy(proxyConfig.value).Some?
    ensures r.Some? ==> r.value == ProxyUrl(ParseProxy(proxyConfig.value).value)
  {
    match proxyConfig
    case None => None
    case Some(config) =>
      if config == "" then None
      else match ParseProxy(config)
        case None => None
        case Some(p) => Some(ProxyUrl(p))
  }

  /** A malformed or empty descriptor means a direct request, never an error. */
  lemma ProxyArgumentDefined(config: string)
    ensures ProxyArgument(Some(config)).Some? <==> Count(config, ':') >= 3
    ensures ProxyArgument(Some(config)).Some? ==>
              ProxyArgument(Some(config)).value == ProxyUrl(ParseProxy(config).value)
  {
    ParseProxyDefined(config);
  }

  /** A completed run is classified; a timeout or an exception is reported as such. */
  function OutcomeOf(result: CurlResult): (o: Outcome)
    ensures o.Passed() ==> result.Completed?
    ensures o.Timeout? <==> result.TimedOut?
    ensures o.Error? <==> result.Failed?
    ensures result.Failed? ==> o.detail == result.error
  {
    match result
    case Completed(stdout) =>
      var response := SplitOutput(stdout);
      Classify(response.status, response.body)
    case TimedOut => Timeout
    case Failed(error) => Error(error)
  }

  datatype Verdict = Verdict(passed: bool, message: string)

  /** `check_link_with_curl`: the verdict and message for one probe of one link. */
  function CheckLink(url: string, proxyConfig: Option<string>, proxyName: string, curl: Curl): Verdict
  {
    var o := OutcomeOf(curl(url, ProxyArgument(proxyConfig)));
    Verdict(o.Passed(), Message(o, DisplayUrl(url), proxyName))
  }

  /**
    A link passes only when curl completes, its status is 200 and the body
    is not a masked Cloudflare challenge; timeouts and errors always fail.
    The message starts with the pass mark exactly when the link passed.
   */
  lemma CheckLinkVerdict(url: string, proxyConfig: Option<string>, proxyName: string, curl: Curl)
    ensures CheckLink(url, proxyConfig, proxyName, curl).passed <==>
              && curl(url, ProxyArgument(proxyConfig)).Completed?
              && SplitOutput(curl(url, ProxyArgument(proxyConfig)).stdout).status == "200"
              && !MaskedChallengePage(Lower(SplitOutput(curl(url, ProxyArgument(proxyConfig)).stdout).body))
    ensures |CheckLink(url, proxyConfig, proxyName, curl).message| > 0
    ensures CheckLink(url, proxyConfig, proxyName, curl).message[0] == '✅'
            <==> CheckLink(url, proxyConfig, proxyName, curl).passed
  {
    var o := OutcomeOf(curl(url, ProxyArgument(proxyConfig)));
    MessageMarksPass(o, DisplayUrl(url), proxyName);
  }

  /** An unlisted status code is reported verbatim at the end of the message. */
  lemma UnlistedStatusReported(url: string, proxyConfig: Option<string>, proxyName: string, curl: Curl)
    requires curl(url, ProxyArgument(proxyConfig)).Completed?
    requires !KnownStatus(SplitOutput(curl(url, ProxyArgument(proxyConfig)).stdout).status)
    ensures Contains(CheckLink(url, proxyConfig, proxyName, curl).message,
                     "Status: " + SplitOutput(curl(url, ProxyArgument(proxyConfig)).stdout).status)
  {
    var status := SplitOutput(curl(url, ProxyArgument(proxyConfig)).stdout).status;
    var o := OutcomeOf(curl(url, ProxyArgument(proxyConfig)));
    var head := Icon(o) + " " + DisplayUrl(url) + " (" + proxyName + ") - ";
    assert CheckLink(url, proxyConfig, proxyName, curl).message == head + ("Status: " + status);
    ContainsSuffix(head, "Status: " + status);
  }

  /**
    The status code has priority: a 200 page passes even when it says
    "sorry, you have been blocked", as long as it lacks "cloudflare".
   */
  lemma StatusDecidesFirst(body: string)
    requires Contains(Lower(body), "sorry, you have been blocked")
    requires !Contains(Lower(body), "cloudflare")
    ensures Classify("200", body).Passed()
    ensures Classify("403", body) == CloudflareBlocked
  {
  }
}
