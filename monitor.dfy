/**
  The bot's configuration (`LinkBot` in bot.py) and the engine that runs
  on it: every link is probed through the Israeli proxy, then the
  Ukrainian one, or directly when neither is configured, and one sweep
  over all links assembles the report text that is sent to the chat.
 */
module Monitor {
  import opened Wrappers
  import opened Text
  import opened Probe

  const IsraelLabel := "🇮🇱"
  const UkraineLabel := "🇺🇦"
  const DirectLabel := "🌐"

  /** The smallest check interval, in seconds, the bot accepts. */
  const MinInterval := 10
  const DefaultInterval := 60

  predicate Distinct(s: seq<string>)
  {
    forall i, j :: 0 <= i < j < |s| ==> s[i] != s[j]
  }

  /** What the bot accepts as a link: an http(s) URL longer than 10 characters. */
  predicate IsLinkFormat(url: string)
  {
    (StartsWith(url, "http://") || StartsWith(url, "https://")) && |url| > 10
  }

  /** `list.pop(i)` on the list: exactly element i goes, the rest keep their order. */
  function RemoveAt(s: seq<string>, i: nat): (r: seq<string>)
    requires i < |s|
    ensures |r| == |s| - 1
    ensures forall j :: 0 <= j < i ==> r[j] == s[j]
    ensures forall j :: i <= j < |r| ==> r[j] == s[j + 1]
    ensures multiset(r) + multiset{s[i]} == multiset(s)
  {
    assert s == s[..i] + [s[i]] + s[i + 1..];
    s[..i] + s[i + 1..]
  }

  /** Removing a link from a duplicate-free list keeps it duplicate-free and drops that link. */
  lemma RemoveAtDistinct(s: seq<string>, i: nat)
    requires i < |s| && Distinct(s)
    ensures Distinct(RemoveAt(s, i))
    ensures s[i] !in RemoveAt(s, i)
  {
    var r := RemoveAt(s, i);
    forall a, b | 0 <= a < b < |r|
      ensures r[a] != r[b]
    {
      var a' := if a < i then a else a + 1;
      var b' := if b < i then b else b + 1;
      assert r[a] == s[a'] && r[b] == s[b'] && a' < b';
    }
  }

  // ---------------------------------------------------------------------------
  // The probes for one link and the lines of one sweep

  /**
    The messages for one link: Israel's first, then Ukraine's, and a
    single direct probe only when neither proxy is set.
   */
  function ProbeResults(url: string, proxyIl: string, proxyUa: string, curl: Curl): (r: seq<string>)
    ensures |r| == (if proxyIl != "" then 1 else 0) + (if proxyUa != "" then 1 else 0)
                   + (if proxyIl == "" && proxyUa == "" then 1 else 0)
    ensures 1 <= |r| <= 2
    ensures proxyIl != "" ==> r[0] == CheckLink(url, Some(proxyIl), IsraelLabel, curl).message
    ensures proxyUa != "" ==> r[|r| - 1] == CheckLink(url, Some(proxyUa), UkraineLabel, curl).message
    ensures proxyIl == "" && proxyUa == "" ==> r == [CheckLink(url, None, DirectLabel, curl).message]
  {
    if proxyIl != "" && proxyUa != "" then
      [CheckLink(url, Some(proxyIl), IsraelLabel, curl).message, CheckLink(url, Some(proxyUa), UkraineLabel, curl).message]
    else if proxyIl != "" then [CheckLink(url, Some(proxyIl), IsraelLabel, curl).message]
    else if proxyUa != "" then [CheckLink(url, Some(proxyUa), UkraineLabel, curl).message]
    else [CheckLink(url, None, DirectLabel, curl).message]
  }

  /** A link's lines in the report: its results, then "" if there was more than one. */
  function LinkBlock(results: seq<string>): (b: seq<string>)
    ensures |b| == if |results| > 1 then |results| + 1 else |results|
    ensures b[..|results|] == results
    ensures |results| > 1 ==> b[|results|] == ""
  {
    results + (if |results| > 1 then [""] else [])
  }

  /** Extending with the results, then "" when there are several, appends the link's block. */
  lemma LinkBlockAppend(lines: seq<string>, results: seq<string>)
    ensures lines + LinkBlock(results) == if |results| > 1 then lines + results + [""] else lines + results
  {
  }

  /** How many report lines each link contributes under a proxy configuration. */
  function BlockSize(proxyIl: string, proxyUa: string): nat
  {
    if proxyIl != "" && proxyUa != "" then 3 else 1
  }

  lemma LinkBlockSize(url: string, proxyIl: string, proxyUa: string, curl: Curl)
    ensures |LinkBlock(ProbeResults(url, proxyIl, proxyUa, curl))| == BlockSize(proxyIl, proxyUa)
  {
  }

  /** Every link contributes BlockSize lines. */
  lemma LinkLinesSize(proxyIl: string, proxyUa: string, curl: Curl)
    ensures forall url :: |LinkLines(proxyIl, proxyUa, curl)(url)| == BlockSize(proxyIl, proxyUa)
  {
    forall url
      ensures |LinkLines(proxyIl, proxyUa, curl)(url)| == BlockSize(proxyIl, proxyUa)
    {
      LinkBlockSize(url, proxyIl, proxyUa, curl);
    }
  }

  /** Each link's block of lines, one link after the other in list order. */
  function Sweep(links: seq<string>, block: string -> seq<string>): seq<string>
    decreases |links|
  {
    if links == [] then []
    else Sweep(links[..|links| - 1], block) + block(links[|links| - 1])
  }

  /** The block a link contributes to the report under a proxy configuration. */
  function LinkLines(proxyIl: string, proxyUa: string, curl: Curl): string -> seq<string>
  {
    url => LinkBlock(ProbeResults(url, proxyIl, proxyUa, curl))
  }

  /** All lines of a sweep over `links` (`all_results` in the source). */
  function SweepLines(links: seq<string>, proxyIl: string, proxyUa: string, curl: Curl): seq<string>
  {
    Sweep(links, LinkLines(proxyIl, proxyUa, curl))
  }

  /** A sweep over two lists of links is the sweep over the first, then over the second. */
  lemma {:induction false} SweepAppend(a: seq<string>, b: seq<string>, block: string -> seq<string>)
    ensures Sweep(a + b, block) == Sweep(a, block) + Sweep(b, block)
    decreases |b|
  {
    if b == [] {
      assert a + b == a;
    } else {
      var b' := b[..|b| - 1];
      SweepAppend(a, b', block);
      assert (a + b)[..|a + b| - 1] == a + b';
      assert (a + b)[|a + b| - 1] == b[|b| - 1];
    }
  }

  /** One more link adds its block at the end. */
  lemma SweepStep(links: seq<string>, i: nat, block: string -> seq<string>)
    requires i < |links|
    ensures Sweep(links[..i + 1], block) == Sweep(links[..i], block) + block(links[i])
  {
    assert links[..i + 1][..i] == links[..i];
  }

  /** When every block has n lines, a sweep has n lines per link. */
  lemma {:induction false} SweepLength(links: seq<string>, block: string -> seq<string>, n: nat)
    requires forall url :: |block(url)| == n
    ensures |Sweep(links, block)| == |links| * n
    decreases |links|
  {
    if links != [] {
      SweepLength(links[..|links| - 1], block, n);
      assert |links| * n == (|links| - 1) * n + n;
    }
  }

  /** One more link adds its probe messages, and the separator if any, at the end. */
  lemma SweepLinesStep(links: seq<string>, i: nat, proxyIl: string, proxyUa: string, curl: Curl)
    requires i < |links|
    ensures SweepLines(links[..i + 1], proxyIl, proxyUa, curl)
            == SweepLines(links[..i], proxyIl, proxyUa, curl) + LinkBlock(ProbeResults(links[i], proxyIl, proxyUa, curl))
  {
    SweepStep(links, i, LinkLines(proxyIl, proxyUa, curl));
  }

  /**
    The sweep splits around any link: the links before it, its block, the
    links after it. The proof is by two appends, not by induction; an
    induction hypothesis on `links` only sends the solver in circles.
   */
  lemma {:induction false} SweepSplitAt(links: seq<string>, k: nat, block: string -> seq<string>)
    requires k < |links|
    ensures Sweep(links, block) == Sweep(links[..k], block) + block(links[k]) + Sweep(links[k + 1..], block)
  {
    var before, after := links[..k], links[k + 1..];
    assert links == (before + [links[k]]) + after;
    SweepAppend(before + [links[k]], after, block);
    SweepAppend(before, [links[k]], block);
    assert Sweep([links[k]], block) == Sweep([], block) + block(links[k]);
  }

  /** With n lines per link, line n * k + j of a sweep is line j of the k-th link's block. */
  lemma SweepLineAt(links: seq<string>, k: nat, j: nat, block: string -> seq<string>, n: nat)
    requires forall url :: |block(url)| == n
    requires k < |links| && j < n
    ensures n * k + j < |Sweep(links, block)|
    ensures Sweep(links, block)[n * k + j] == block(links[k])[j]
  {
    assert n * k == k * n;
    SweepSplitAt(links, k, block);
    SweepLength(links[..k], block, n);
    SweepLength(links, block, n);
    assert k * n + n <= |links| * n by {
      assert |links| * n == k * n + (|links| - k) * n;
    }
  }

  /** A block of three lines comes from two results and ends with the separator. */
  lemma BlockOfThree(results: seq<string>)
    requires |LinkBlock(results)| == 3
    ensures |results| == 2
    ensures LinkBlock(results)[2] == ""
  {
  }

  /** With both proxies set, every link's block has three lines and ends with the separator. */
  lemma BothProxiesBlocks(proxyIl: string, proxyUa: string, curl: Curl)
    requires BlockSize(proxyIl, proxyUa) == 3
    ensures forall url :: |LinkLines(proxyIl, proxyUa, curl)(url)| == 3 && LinkLines(proxyIl, proxyUa, curl)(url)[2] == ""
  {
    forall url
      ensures |LinkLines(proxyIl, proxyUa, curl)(url)| == 3 && LinkLines(proxyIl, proxyUa, curl)(url)[2] == ""
    {
      LinkBlockSize(url, proxyIl, proxyUa, curl);
      BlockOfThree(ProbeResults(url, proxyIl, proxyUa, curl));
    }
  }

  /** When every block has three lines, the last a separator, every third line of a sweep is one. */
  lemma SweepSeparators(links: seq<string>, k: nat, block: string -> seq<string>)
    requires forall url :: |block(url)| == 3 && block(url)[2] == ""
    requires k < |links|
    ensures 3 * k + 2 < |Sweep(links, block)| && Sweep(links, block)[3 * k + 2] == ""
  {
    SweepLineAt(links, k, 2, block, 3);
  }

  /**
    With both proxies set (BlockSize is 3 exactly then), every link takes
    three report lines, and the third of them is the blank separator.
    Callers state the proxy condition as `BlockSize(..) == 3`: with the two
    disequalities in scope every probe in the sweep unfolds.
   */
  lemma SeparatorAfterEachLink(links: seq<string>, k: nat, proxyIl: string, proxyUa: string, curl: Curl)
    requires BlockSize(proxyIl, proxyUa) == 3
    requires k < |links|
    ensures 3 * k + 2 < |SweepLines(links, proxyIl, proxyUa, curl)| && SweepLines(links, proxyIl, proxyUa, curl)[3 * k + 2] == ""
  {
    BothProxiesBlocks(proxyIl, proxyUa, curl);
    SweepSeparators(links, k, LinkLines(proxyIl, proxyUa, curl));
  }

  /** A sweep over a single link is that link's block. */
  lemma SweepSingle(links: seq<string>, block: string -> seq<string>)
    requires |links| == 1
    ensures Sweep(links, block) == block(links[0])
  {
    assert links[..0] == [];
  }

  /** The report lines for a list of one link are that link's block. */
  lemma SweepLinesSingle(links: seq<string>, proxyIl: string, proxyUa: string, curl: Curl)
    requires |links| == 1
    ensures SweepLines(links, proxyIl, proxyUa, curl) == LinkBlock(ProbeResults(links[0], proxyIl, proxyUa, curl))
  {
    SweepSingle(links, LinkLines(proxyIl, proxyUa, curl));
  }

  /** A block of one line joins to that line alone. */
  lemma JoinSingleBlock(lines: seq<string>, sep: string)
    requires |lines| == 1
    ensures Join(lines, sep) == lines[0]
  {
  }

  /**
    With at most one proxy set (BlockSize is 1 exactly then), the report
    text for a single link is that link's one probe message.
   */
  lemma SingleLinkReport(links: seq<string>, proxyIl: string, proxyUa: string, curl: Curl)
    requires |links| == 1
    requires BlockSize(proxyIl, proxyUa) == 1
    ensures Join(SweepLines(links, proxyIl, proxyUa, curl), "\n") == ProbeResults(links[0], proxyIl, proxyUa, curl)[0]
  {
    var results := ProbeResults(links[0], proxyIl, proxyUa, curl);
    SweepLinesSingle(links, proxyIl, proxyUa, curl);
    LinkBlockSize(links[0], proxyIl, proxyUa, curl);
    assert LinkBlock(results) == results;
    JoinSingleBlock(results, "\n");
  }

  /**
    The report lines around the k-th link: the lines of the links before
    it, then its probe messages (Israel's before Ukraine's) followed by ""
    exactly when there are two, then the lines of the links after it; the
    links before it take BlockSize lines each.
   */
  lemma SweepLinesAt(links: seq<string>, k: nat, proxyIl: string, proxyUa: string, curl: Curl)
    requires k < |links|
    ensures SweepLines(links, proxyIl, proxyUa, curl)
            == SweepLines(links[..k], proxyIl, proxyUa, curl)
               + LinkBlock(ProbeResults(links[k], proxyIl, proxyUa, curl))
               + SweepLines(links[k + 1..], proxyIl, proxyUa, curl)
    ensures |SweepLines(links[..k], proxyIl, proxyUa, curl)| == k * BlockSize(proxyIl, proxyUa)
  {
    LinkLinesSize(proxyIl, proxyUa, curl);
    SweepLength(links[..k], LinkLines(proxyIl, proxyUa, curl), BlockSize(proxyIl, proxyUa));
    SweepSplitAt(links, k, LinkLines(proxyIl, proxyUa, curl));
  }

  /** A sweep has BlockSize lines per link, so it is empty exactly when there are no links. */
  lemma SweepLinesLength(links: seq<string>, proxyIl: string, proxyUa: string, curl: Curl)
    ensures |SweepLines(links, proxyIl, proxyUa, curl)| == |links| * BlockSize(proxyIl, proxyUa)
    ensures SweepLines(links, proxyIl, proxyUa, curl) == [] <==> links == []
  {
    var n := BlockSize(proxyIl, proxyUa);
    LinkLinesSize(proxyIl, proxyUa, curl);
    SweepLength(links, LinkLines(proxyIl, proxyUa, curl), n);
    PositiveMultiple(|links|, n);
  }

  lemma PositiveMultiple(m: nat, n: nat)
    requires n >= 1
    ensures m * n == 0 <==> m == 0
  {
    if m > 0 {
      assert m * n >= m * 1;
    }
  }

  /** The header line of a report; the clock reading is passed in. */
  function Header(timestamp: string): string
  {
    "🔍 Проверка ссылок (" + timestamp + "):\n\n"
  }

  /** A report goes out only when a chat is configured (`CHAT_ID` set and non-empty). */
  predicate ChatConfigured(chatId: Option<string>)
  {
    chatId.Some? && chatId.value != ""
  }

  // ---------------------------------------------------------------------------
  // The bot's mutable configuration

  datatype AddOutcome = Added | AlreadyPresent | InvalidFormat

  class LinkBot {
    var links: seq<string>
    var proxyIl: string
    var proxyUa: string
    var checkInterval: int

    /** The links are duplicate-free and the interval respects the 10-second floor. */
    ghost predicate Valid()
      reads this
    {
      Distinct(links) && checkInterval >= MinInterval
    }

    /** The state a fresh bot starts from when nothing was saved before. */
    constructor ()
      ensures Valid()
      ensures links == [] && proxyIl == "" && proxyUa == "" && checkInterval == DefaultInterval
    {
      links := [];
      proxyIl := "";
      proxyUa := "";
      checkInterval := DefaultInterval;
    }

    /** Appends a well-formed link that is not yet in the list; otherwise nothing changes. */
    method AddLink(url: string) returns (outcome: AddOutcome)
      requires Valid()
      modifies this`links
      ensures Valid()
      ensures outcome == InvalidFormat <==> !IsLinkFormat(url)
      ensures outcome == AlreadyPresent <==> IsLinkFormat(url) && url in old(links)
      ensures outcome == Added <==> IsLinkFormat(url) && url !in old(links)
      ensures links == if outcome == Added then old(links) + [url] else old(links)
    {
      if IsLinkFormat(url) {
        if url in links {
          outcome := AlreadyPresent;
        } else {
          links := links + [url];
          outcome := Added;
        }
      } else {
        outcome := InvalidFormat;
      }
    }

    /**
      Removes the link at `index`. An index past the end raises IndexError
      in the source before anything is saved; here it leaves the list as
      it was and reports no link.
     */
    method DeleteLink(index: nat) returns (deleted: Option<string>)
      requires Valid()
      modifies this`links
      ensures Valid()
      ensures deleted.Some? <==> index < |old(links)|
      ensures deleted.Some? ==> deleted.value == old(links)[index] && links == RemoveAt(old(links), index)
      ensures deleted.None? ==> links == old(links)
      ensures deleted.Some? ==> deleted.value !in links
    {
      if index < |links| {
        RemoveAtDistinct(links, index);
        deleted := Some(links[index]);
        links := RemoveAt(links, index);
      } else {
        deleted := None;
      }
    }

    /** Accepts an interval of at least 10 seconds; a smaller one changes nothing. */
    method SetInterval(interval: int) returns (accepted: bool)
      requires Valid()
      modifies this`checkInterval
      ensures Valid()
      ensures accepted <==> interval >= MinInterval
      ensures checkInterval == if accepted then interval else old(checkInterval)
    {
      if interval < MinInterval {
        accepted := false;
      } else {
        checkInterval := interval;
        accepted := true;
      }
    }

    /** Stores the Israeli proxy descriptor as given; it is parsed only when probing. */
    method SetProxyIl(proxy: string)
      requires Valid()
      modifies this`proxyIl
      ensures Valid()
      ensures proxyIl == proxy
    {
      proxyIl := proxy;
    }

    /** Stores the Ukrainian proxy descriptor as given; it is parsed only when probing. */
    method SetProxyUa(proxy: string)
      requires Valid()
      modifies this`proxyUa
      ensures Valid()
      ensures proxyUa == proxy
    {
      proxyUa := proxy;
    }

    /** `check_link_both_proxies`: the messages for one link, in probing order. */
    method CheckLinkBothProxies(url: string, curl: Curl) returns (results: seq<string>)
      ensures results == ProbeResults(url, proxyIl, proxyUa, curl)
      ensures 1 <= |results| <= 2
    {
      results := [];
      if proxyIl != "" {
        var ilVerdict := CheckLink(url, Some(proxyIl), IsraelLabel, curl);
        results := results + [ilVerdict.message];
      }
      if proxyUa != "" {
        var uaVerdict := CheckLink(url, Some(proxyUa), UkraineLabel, curl);
        results := results + [uaVerdict.message];
      }
      if proxyIl == "" && proxyUa == "" {
        var verdict := CheckLink(url, None, DirectLabel, curl);
        results := results + [verdict.message];
      }
    }
  }

  /**
    `check_links_task`: one sweep over the bot's links. The report is
    produced exactly when there are links and a chat to send to, and it is
    the header followed by the sweep's lines joined with newlines.
   */
  method CheckLinksTask(bot: LinkBot, chatId: Option<string>, timestamp: string, curl: Curl)
    returns (report: Option<string>)
    ensures report.Some? <==> bot.links != [] && ChatConfigured(chatId)
    ensures report.Some? ==>
              report.value == Header(timestamp) + Join(SweepLines(bot.links, bot.proxyIl, bot.proxyUa, curl), "\n")
  {
    if bot.links == [] {
      return None;
    }
    if !ChatConfigured(chatId) {
      return None;
    }
    var links, proxyIl, proxyUa := bot.links, bot.proxyIl, bot.proxyUa;
    var allResults: seq<string> := [];
    var i := 0;
    while i < |links|
      invariant 0 <= i <= |links|
      invariant allResults == SweepLines(links[..i], proxyIl, proxyUa, curl)
    {
      var linkResults := bot.CheckLinkBothProxies(links[i], curl);
      SweepLinesStep(links, i, proxyIl, proxyUa, curl);
      LinkBlockAppend(allResults, linkResults);
      allResults := allResults + linkResults;
      if |linkResults| > 1 {
        allResults := allResults + [""];
      }
      i := i + 1;
    }
    assert links[..i] == links;
    SweepLinesLength(links, proxyIl, proxyUa, curl);
    if allResults != [] {
      report := Some(Header(timestamp) + Join(allResults, "\n"));
    } else {
      report := None;
    }
  }
}
