# Link monitor bot — verified model of the link health-check engine

`bot.py` is a Telegram bot that keeps a list of URLs. On a timer it probes
each URL with `curl`: through an Israeli proxy, then through a Ukrainian
one, or directly when neither proxy is configured. It then sends one
report listing a line per probe. This project models that engine in Dafny
and proves what it promises:

- `Text` holds the string primitives the bot relies on:
  - Python's `str.split` on one character, and `sep.join`;
  - ASCII lower-casing;
  - the substring test `sub in s`.
- `Probe` models one probe (`LinkBot.check_link_with_curl`):
  - the `host:port:user:password` proxy descriptor becomes curl's
    `-x user:password@host:port`;
  - curl's standard output is split into body and trailing three-digit
    status code;
  - the URL is shortened for display;
  - the status code and the lower-cased body are classified into a
    pass/fail verdict and a one-line message.
  The curl subprocess is a function parameter `Curl`. Given the URL and
  the proxy argument, it returns the standard output, a timeout or an
  error text.
- `Monitor` models the `LinkBot` object whose fields the bot updates in
  place. It is a class with:
  - the add-link, delete-link, interval and proxy updates made by the
    message and button handlers;
  - `check_link_both_proxies`.
  Beside the class, as in bot.py, the module-level method `CheckLinksTask`
  models `check_links_task`: its sweep loop builds the report text.
  The sweep is specified by the function `SweepLines`: each link's probe
  messages, in list order, each followed by `""` exactly when that link
  produced two messages.
- `Wrappers` holds the `Option` type.

## Model

| member | source | states |
|---|---|---|
| Text.Split | bot.py:72 | `str.split` on one character: always at least one part, and no part holds the separator; `SplitThenJoin` and `JoinThenSplit` tie it to `Join` |
| Text.Join | bot.py:368 | `sep.join`; specified through `SplitThenJoin` and `JoinThenSplit` |
| Text.Contains | bot.py:101-122 | the `in` test on the lower-cased body; `ContainsAt` proves it equal to "occurs at some position" |
| Text.StartsWith | bot.py:257 | `str.startswith`: the prefix fits and the string begins with it; `AddLink` states which links pass it |
| Text.SplitCount | bot.py:72 | `split(':')` yields exactly one more part than the descriptor has colons |
| Text.SplitThenJoin | bot.py:72 | joining the parts of a split with the separator gives back the original string |
| Text.JoinThenSplit | bot.py:72 | splitting a join of separator-free parts gives back those parts |
| Text.SplitAfterPiece | bot.py:72 | a separator-free leading field comes off as the first part and the rest splits on its own |
| Text.ContainsAt | bot.py:101 | the substring test holds exactly when the substring occurs at some position |
| Text.Lower | bot.py:101 | lower-casing keeps the length, maps each character, and leaves no upper-case ASCII letter |
| Probe.ParseProxy | bot.py:72-77 | a proxy is parsed exactly when the split gives at least four parts, and its fields then hold no ':' |
| Probe.ProxyUrl | bot.py:78 | `user:password@host:port`; `ProxyArgument` states that curl's `-x` value is exactly this for the parsed proxy |
| Probe.ParseProxyDefined | bot.py:70-79 | a proxy is built exactly when the descriptor has at least four colon-separated parts, i.e. at least three colons |
| Probe.ParsedDescriptorShape | bot.py:72-77 | the parsed host, port, user and password are the first four fields: they hold no colon, the descriptor starts with `host:port:user:password`; with exactly three colons it is nothing more, and with more it continues with ':' right after the password, so the password is the whole fourth field |
| Probe.ParseProxyRoundTrip | bot.py:72-78 | parsing `host:port:user:password` from colon-free fields gives those four fields back |
| Probe.ParseProxyIgnoresExtra | bot.py:73-77 | fields after the fourth never change the proxy that is used |
| Probe.ProxyArgument | bot.py:70-79 | curl gets `-x` exactly when a descriptor is given, is non-empty and parses, and the argument is then `user:password@host:port` of the parsed proxy |
| Probe.ProxyArgumentDefined | bot.py:70-79 | the `-x` argument is present exactly when the descriptor has at least three colons, and it is then `user:password@host:port` of the parsed fields; an empty or malformed descriptor means a direct request |
| Probe.SplitOutput | bot.py:89-96 | the status has three characters; when the output has at least three, body + status is the whole output, otherwise the status is "000" and the body empty |
| Probe.DisplayUrl | bot.py:57 | a URL of at most 50 characters is shown as is; a longer one as its first 50 characters followed by "...", so never more than 53 |
| Probe.MaskedChallengePage | bot.py:101 | the lower-cased 200 body holds both "cloudflare" and "ray id"; `Classify` fails a 200 exactly when it holds |
| Probe.CloudflareBlockPage | bot.py:110-116 | any of the four 403 indicators: "sorry, you have been blocked", "attention required!" together with "cloudflare", "cf-error-details", "cf-wrapper"; `Classify` reports a Cloudflare block for a 403 exactly when it holds |
| Probe.CloudflareChallengePage | bot.py:122 | "cloudflare" together with "checking your browser" or "cf-"; `Classify` reports a Cloudflare challenge for a 503 exactly when it holds |
| Probe.Classify | bot.py:98-129 | the status decides first: each outcome holds exactly under its status, and for 200/403/503 exactly when the lower-cased body has (or lacks) that branch's Cloudflare markers; an unlisted status is reported with its own code |
| Probe.OutcomeOf | bot.py:83-134 | only a completed curl run can pass; a subprocess timeout is reported as Timeout and an exception as Error carrying its text |
| Probe.Icon | bot.py:102-134 | every message mark is non-empty, and only a passed probe gets ✅ |
| Probe.Reason | bot.py:102-134 | the twelve texts after " - " in the messages, as in bot.py; `UnlistedStatusReported` states the "Status: <code>" one, the others have no contract of their own |
| Probe.Message | bot.py:102-134 | `<mark> <display url> (<proxy label>) - <reason>`; `MessageMarksPass` proves it non-empty and starting with ✅ exactly when the outcome passed |
| Probe.CheckLink | bot.py:56-134 | `check_link_with_curl`; `CheckLinkVerdict` states when it passes and how its message is marked, `UnlistedStatusReported` what an unlisted status gives |
| Probe.StatusDecidesFirst | bot.py:98-119 | a body saying "sorry, you have been blocked" without "cloudflare" passes under 200 and is a Cloudflare block under 403 |
| Probe.MessageMarksPass | bot.py:99-134 | every message is non-empty and starts with ✅ exactly when its outcome passed |
| Probe.CheckLinkVerdict | bot.py:56-134 | a probe passes exactly when curl completes with status 200 and a body that is not a masked Cloudflare challenge, so timeouts and errors always fail; its message starts with ✅ exactly when it passed |
| Probe.UnlistedStatusReported | bot.py:128-129 | a status outside 200/404/502/403/503/000 appears verbatim as "Status: <code>" in the message |
| Monitor.ProbeResults | bot.py:136-155 | one message per configured proxy, Israel's before Ukraine's, or the single direct (🌐) message when neither is set; always 1 or 2 messages |
| Monitor.LinkBot.CheckLinkBothProxies | bot.py:136-155 | the messages it collects are `ProbeResults` for the bot's current proxies, 1 or 2 of them |
| Monitor.LinkBlock | bot.py:361-364 | a link's lines are its messages, followed by "" exactly when there is more than one |
| Monitor.SweepLines | bot.py:357-364 | `all_results` after the loop; `SweepLinesAt` and `SweepLinesLength` state its layout and size, and `CheckLinksTask`'s loop is proved to build exactly it |
| Monitor.SweepAppend | bot.py:358-364 | a sweep over two lists of links is the sweep over the first followed by the sweep over the second |
| Monitor.SweepLineAt | bot.py:358-364 | when every link contributes n lines, line n * k + j of the sweep is line j of the k-th link's block |
| Monitor.SeparatorAfterEachLink | bot.py:360-364 | with both proxies set (three lines per link), line 3k + 2 of the sweep is the blank separator after the k-th link |
| Monitor.SweepLinesSingle | bot.py:358-364 | for a list of one link the sweep's lines are exactly that link's block |
| Monitor.SingleLinkReport | bot.py:357-368 | with one link and at most one proxy set, the joined report lines are that link's single probe message |
| Monitor.SweepLinesAt | bot.py:358-364 | around the k-th link the report lines are: the lines of earlier links, then its messages and separator, then the lines of later links; the earlier links take a fixed number of lines each |
| Monitor.SweepLinesLength | bot.py:357-366 | the sweep has 1 line per link (3 with both proxies set), so it is empty exactly when there are no links |
| Monitor.Header | bot.py:367 | the report's first line, with the time stamp passed in; `CheckLinksTask` puts it before the lines |
| Monitor.ChatConfigured | bot.py:353-355 | a chat id is set and non-empty; `CheckLinksTask` reports exactly when it holds and there are links |
| Monitor.CheckLinksTask | bot.py:349-368 | a report exists exactly when there are links and a chat id; it is the header followed by the sweep's lines joined with newlines |
| Monitor.RemoveAt | bot.py:234 | `pop(i)` removes exactly element i and keeps the rest in order |
| Monitor.RemoveAtDistinct | bot.py:232-234 | removing a link from a duplicate-free list keeps it duplicate-free and the removed link is gone |
| Monitor.LinkBot.constructor | bot.py:28-32 | a bot with no saved state has no links, no proxies and a 60-second interval |
| Monitor.IsLinkFormat | bot.py:257 | an http:// or https:// prefix and more than 10 characters; `AddLink` rejects exactly the links that fail it |
| Monitor.LinkBot.AddLink | bot.py:253-278 | a link is appended exactly when it starts with http:// or https://, is longer than 10 characters and is not yet listed; otherwise the list is unchanged and the outcome says why; the list stays duplicate-free |
| Monitor.LinkBot.DeleteLink | bot.py:232-234 | a valid index removes exactly that link and returns it, keeping the others in order and the list duplicate-free |
| Monitor.LinkBot.SetInterval | bot.py:281-291 | the interval changes, to the new value, exactly when that value is at least 10 |
| Monitor.LinkBot.SetProxyIl | bot.py:322-325 | the Israeli proxy descriptor is stored as given, and the bot stays valid |
| Monitor.LinkBot.SetProxyUa | bot.py:332-335 | the Ukrainian proxy descriptor is stored as given, and the bot stays valid |

## Left out

- The curl subprocess (bot.py:61-87): its flags, headers, the 8-second `--max-time`, the 10-second subprocess timeout and the stderr logging. It is the `Curl` parameter, which returns standard output, `TimedOut` or `Failed(text)`. The bot does not retry a failed probe, and neither does the model.
- The Telegram user interface: keyboards, `start`, reply texts, the `waiting_for` dispatch and the handler wiring (bot.py:45-54, 159-248, 375-403). Only the state changes the handlers make are modelled.
- Persistence: `load_data` and `save_data` (bot.py:20-43). A bot starts from the defaults of an absent data file, so the invariant `Valid` (duplicate-free links, interval of at least 10 seconds) is established by the constructor; data read from a hand-edited file is not checked.
- Scheduling: `job_queue.run_repeating`, removing and restarting the job when the interval changes, and the asynchronous `send_message` (bot.py:293-309, 370-373, 388-397). The report text is modelled up to the point where it is sent. Note that the job started at launch repeats every 60 seconds whatever interval is stored (bot.py:392-397); only a later interval change reschedules it.
- The environment and the clock: `CHAT_ID` is a parameter `Option<string>`, and the `datetime.now()` time stamp in the report header is a parameter string.
- `.strip()` of the user's input and `int()` parsing of the interval, together with its "enter a number" error path: the methods take the already stripped text and the parsed integer.
- `callback_data` parsing for deletion (`int(query.data.split("_")[1])`): `DeleteLink` takes the index as a natural number.
- Monitor.LinkBot.DeleteLink: `links.pop(index)` with an index past the end raises `IndexError` in the source. The model instead leaves the list unchanged and returns `None`. Such an index is reachable: a delete keyboard drawn before an earlier deletion (bot.py:191-208) can still offer an index past the end, and the same stale keyboard with an index still in range deletes whatever link is now at that position, which the model does alike.
- Text.Lower: Python's `str.lower()` is Unicode-aware; the model lower-cases ASCII letters only and keeps every other character. The two differ on characters whose lower case is an ASCII letter, such as the Kelvin sign U+212A, which Python lowers to 'k': a 503 body with "cloudflare" and "chec\u212Aing your browser" (and no "cf-") is a Cloudflare challenge in bot.py but Service Unavailable in the model.
- The confirmation texts that shorten a URL to 60 characters (bot.py:238, 269) are user-interface replies and are not modelled.
- The classification follows the code: the status code decides first, the body markers matter only within the 200, 403 and 503 branches, and Cloudflare markers never override the status code.
- The sweep adds the blank separator after every link with two messages, including the last one, so the joined report then ends in a newline.
- Probe.Curl: the transport is a pure function of the URL and the proxy argument, so two probes of the same link with the same `-x` argument get the same result. In bot.py two runs of curl can differ; for example, when both proxies are set but malformed, both probes go direct (bot.py:141-148) and may see different answers. No proved property relies on the two being equal.
