# geotraceroute in Dafny

A model of the core of geotraceroute. geotraceroute is a web service that runs the
system `traceroute`/`tracert` tool, parses its output into hops, and enriches each
hop with a location, an owner and a reputation score. It streams the hops to a
browser page as server-sent events. Seven modules, one per source file plus a
shared one:

- `Common` (common.dfy): `Option`/`Result`, JSON member presence (`Raw`), the
  string operations the sources use (`in`, `startswith`, `split`, `strip`,
  `lower`), a decimal parser standing in for `float()`, and IPv4 literals and
  private ranges.
- `Traceroute` (traceroute.dfy): the `Hop` record, the line parser `_parse_hop`
  and its regular expressions, `_build_command`, `_parse_output`, the line loop
  of `run_stream`, `run`, `stop` and the constructor. The tracer is a class whose
  `process` field is `None` or a running process.
- `IpInfo` (ip_info.dfy): the ipinfo.io client. It covers the reply-to-record
  normaliser `_parse_ip_info` and the reputation rule. `get_ip_info` is modelled
  as a function of the HTTP reply. The service is a class holding the API key and
  a lazily opened session.
- `Enrichment` (data_processor.dfy): the enrichment decision procedure
  `_enrich_hop_data`, written as a method that builds the record step by step and
  proved equal to a functional specification. Also the drivers
  `process_traceroute` and `process_traceroute_stream`, and the ipinfo-only
  policy of `process_traceroute_stream_with_ip_info`.
- `ApiModels` (api_models.dfy): the pydantic request and response models as
  validators that return the value or the field errors.
- `Routes` (routes.dfy): the event stream of `traceroute_generator` as a frame
  sequence, the module-level `current_traceroute` reference, the stop endpoint,
  `get_client_location`, and the batch endpoints with their first-hop override.
- `WebClient` (web_client.dfy): the browser page of app.js. It covers the SSE
  buffer reassembly in `processStream`, event filtering, `processSingleHop`
  accumulation, `formatHopResult` and `updateStats`. The page is a class whose
  fields are the script's global arrays and flags.

The outside world is passed in as parameters:

- the lines the traceroute process prints;
- the platform name;
- whether the target resolves;
- the city and ASN database answers;
- the HTTP replies of ipinfo.io;
- the `DEFAULT_*` environment variables;
- the browser's JSON parser (`parse: string -> Option<Payload>`);
- the chunks the stream reader delivers.

The code behaves as follows in a few places where a reader might expect
otherwise, and the model follows it:

- A reply time that `float()` rejects (for example "1.2.3") makes the whole
  line give no hop (traceroute.py:114, :207-210). The reply time is not treated
  as absent.
- A hop number of 0 is accepted, because the regular expressions take any `\d+`.
- A Windows line whose trailing token is a host name gives a hop with no
  address and three RTTs (traceroute.py:183-202). The invariant "no address,
  no RTTs" therefore does not hold for it. `Traceroute.WellShaped` states what
  does hold.
- The reputation score is looked up with a second ipinfo.io request, separate
  from the location request (data_processor.py:168, :198). The first result is
  not reused. `Lookups.locate` and `Lookups.reputation` are two replies.
- The API key given to the routes is set on the routes' own `IPInfoService`
  (routes.py:23, :77). The data processor owns a different one
  (data_processor.py:26), so the key never reaches enrichment. The model keeps
  the two services apart (`processor.service != service`) and proves that the
  processor's key is unchanged.
- Timeout lines give `rtt_ms == []`, not `None`. The hop type keeps
  `rtt_ms` optional (`Option<seq<real>>`), as the dataclass declares it.
- `successful_hops` counts `ip is not None` in `process_traceroute`, but counts
  a truthy `ip_address` in `process_traceroute_with_ip_info`. The two agree on
  every parsed hop (`Enrichment.SuccessCountsAgree`), because the parser never
  produces an empty address.
- The `-n` fallback pattern (traceroute.py:139) can never fire: every line it
  matches is matched by the pattern before it (`Traceroute.NumericImpliesMain`,
  `Traceroute.FallbackNeverFires`).
- The `except` around `ipaddress.ip_address(...).is_private`
  (data_processor.py:61-66) is unreachable: the same call has just succeeded.
  The prefix list in it is not modelled.

## Model

| member | source | states |
|---|---|---|
| Traceroute.ParseHop | geotraceroute/core/traceroute.py:98-210 | every hop it yields is well shaped: RTTs present, at most three, empty exactly when there is neither address nor host name, a present address is non-empty, and a host-only hop has three RTTs. A blank line or a line containing "traceroute to" gives None |
| Traceroute.MatchMixed | geotraceroute/core/traceroute.py:117 | a match of the mixed pattern has a digit-run hop number, a non-space address and two reply times made of digits and dots; which lines it matches is stated by `MixedLineMatches` |
| Traceroute.MixedLineMatches | geotraceroute/core/traceroute.py:117 | every line of the form: leading spaces, a hop number, spaces, '*', spaces, a non-space address, then two reply times each followed by optional spaces and "ms", each run taken as long as the regular expression takes it, is matched, with exactly those groups |
| Traceroute.MatchMain | geotraceroute/core/traceroute.py:135 | a match of the main pattern is a "* * *" line or an address line: a non-space address, an optional parenthesised host without ')', and one to three numeric reply times; which lines it matches is stated by `AddressLineMatches` and `TripleStarLineMatches` |
| Traceroute.AddressLineMatches | geotraceroute/core/traceroute.py:117-135 | every line with a hop number, an address not starting with '*', an optional " (host)" and one to three reply times, with no further reply time after the last one it reads, fails the mixed pattern and is matched by the main pattern as that address line, with those groups |
| Traceroute.TripleStarLineMatches | geotraceroute/core/traceroute.py:117-135 | every line with a hop number followed by three space-separated stars fails the mixed pattern and is matched by the main pattern as a timeout |
| Traceroute.MatchNumeric | geotraceroute/core/traceroute.py:139 | a match of the `-n` fallback has a non-space address and exactly three numeric reply times; which lines it matches is stated by `NumericLineMatches` |
| Traceroute.NumericLineMatches | geotraceroute/core/traceroute.py:139 | every line with a hop number, a non-space address and three reply times each followed by "ms" is matched by the fallback with those groups |
| Traceroute.MatchWindows | geotraceroute/core/traceroute.py:175 | a match of the Windows pattern is a timeout or three integer reply times followed by a non-space token; which lines it matches is stated by `WindowsStarsMatch` and `WindowsReplyMatches` |
| Traceroute.WindowsStarsMatch | geotraceroute/core/traceroute.py:175 | every line with a hop number and three stars separated by optional spaces is a Windows timeout match |
| Traceroute.WindowsReplyMatches | geotraceroute/core/traceroute.py:175 | every line with a hop number, three digit runs each followed by optional spaces, "ms" and spaces, and a non-space token is a Windows reply match with those groups |
| Traceroute.Floats | geotraceroute/core/traceroute.py:166-170 | the reply times convert all or none: one real per group, in order, each the group's decimal value |
| Traceroute.MixedHop | geotraceroute/core/traceroute.py:118-129 | the mixed shape always gives exactly two RTTs and no host name |
| Traceroute.MainHop | geotraceroute/core/traceroute.py:153-172 | the main shape gives a well-shaped hop |
| Traceroute.NumericHop | geotraceroute/core/traceroute.py:140-151 | the fallback shape gives a well-shaped hop |
| Traceroute.ParseWindows | geotraceroute/core/traceroute.py:175-202 | the Windows shape gives a well-shaped hop, and a line the Windows pattern does not match gives None |
| Traceroute.MixedShapeFirst | geotraceroute/core/traceroute.py:115-129 | when the mixed pattern matches, it decides the line: hop number, address, no host, and the two reply times, or None when one of them fails to convert |
| Traceroute.NumericImpliesMain | geotraceroute/core/traceroute.py:135-139 | every line the `-n` fallback matches is also matched by the main pattern |
| Traceroute.FallbackNeverFires | geotraceroute/core/traceroute.py:137-151 | when neither the mixed nor the main pattern matches, the result is exactly the Windows parse, so the fallback branch is dead |
| Traceroute.AddressLineShape | geotraceroute/core/traceroute.py:160-172 | an address line gives its address, its parenthesised host if any, and its reply times in order, or None when a reply time fails to convert. Text after the matched prefix is ignored |
| Traceroute.WindowsTokenClassified | geotraceroute/core/traceroute.py:183-202 | the trailing Windows token becomes the address when it is an IP literal, and the host name (with no address) otherwise, with its three RTTs |
| Traceroute.TripleStarLineShape | geotraceroute/core/traceroute.py:152-157 | any line the main pattern reads as `N  * * *` gives hop N with no address, no host and an empty RTT list |
| Traceroute.WindowsTimeoutShape | geotraceroute/core/traceroute.py:175-181 | a Windows line containing '*' or read as a timeout gives its hop number with an empty RTT list, and that is the parse of the line when neither earlier shape matches |
| Traceroute.TimeoutLineExample | geotraceroute/core/traceroute.py:156-158 | " 5  * * *" gives hop 5 with no address, no host and an empty RTT list |
| Traceroute.TimeoutLineMatches | geotraceroute/core/traceroute.py:117-135 | that line is not a mixed line, and the main pattern reads it as a triple-star timeout |
| Traceroute.MixedLineParses | geotraceroute/core/traceroute.py:115-129 | on every mixed line (as in `MixedLineMatches`) without "traceroute to", `_parse_hop` gives the hop number, the address, no host and the two reply times' decimal values, or None when either fails to convert |
| Traceroute.MixedLineExample | geotraceroute/core/traceroute.py:116-129 | "7  * 8.8.8.8  23.323 ms  19.489 ms" gives hop 7 at 8.8.8.8 with no host and RTTs [23.323, 19.489] |
| Traceroute.AddressLineParses | geotraceroute/core/traceroute.py:152-172 | on every address line (as in `AddressLineMatches`) without "traceroute to", a hop is returned exactly when every reply time converts; it has the hop number, the address, the parenthesised host exactly when there is one, and one RTT per reply time, in order |
| Traceroute.TripleStarLineParses | geotraceroute/core/traceroute.py:152-157 | every three-star line without "traceroute to" gives its hop number with no address, no host and an empty RTT list |
| Traceroute.WindowsReplyParses | geotraceroute/core/traceroute.py:175-202 | every tracert reply line (as in `WindowsReplyMatches`, with a space before each "ms") without '*' or "traceroute to" gives its hop number, the trailing token as the address when it is an IP literal and as the host name otherwise, and the three whole-millisecond times |
| Traceroute.NoShapeGivesNone | geotraceroute/core/traceroute.py:204-210 | a line that none of the mixed, main and Windows patterns matches gives None |
| Traceroute.NoHopNumberGivesNone | geotraceroute/core/traceroute.py:117-210 | a line whose first non-space character is not a digit gives None |
| Traceroute.FirstCharGivesNone | geotraceroute/core/traceroute.py:117-210 | a line that starts with a character that is neither a space nor a digit gives None |
| Traceroute.FramingLinesGiveNone | geotraceroute/core/traceroute.py:204-210 | tracert's "Tracing route to …", "over a maximum of 30 hops:" and "Trace complete." lines give None |
| Traceroute.FloatsByIndex | geotraceroute/core/traceroute.py:166-170 | the reply times convert all or none, and when they do, the k-th value is the k-th group's decimal value |
| Traceroute.FloatsOfDigits | geotraceroute/core/traceroute.py:197-200 | three digit runs convert to their whole-number values |
| Traceroute.DigitsParse | geotraceroute/core/traceroute.py:119 | a digit run converts to its integer value |
| Traceroute.ParsedHops | geotraceroute/core/traceroute.py:250-257 | `_parse_output` yields at most one hop per line |
| Traceroute.ParsedHopsAppend | geotraceroute/core/traceroute.py:253-256 | parsing two blocks of lines gives the hops of the first block followed by those of the second |
| Traceroute.ParsedHopsMembers | geotraceroute/core/traceroute.py:253-256 | a hop is in the output exactly when some line parses to it |
| Traceroute.ParsedHopsAllMembers | geotraceroute/core/traceroute.py:253-256 | the members statement for every hop at once |
| Traceroute.StripAll | geotraceroute/core/traceroute.py:63-82 | every line read from the process is stripped before it is parsed, one stripped line per line, in order |
| Traceroute.BuildCommand | geotraceroute/core/traceroute.py:235-248 | darwin and linux give `traceroute -n -w <int timeout> -q <retries> -m <max_hops> <target>`. Windows gives `tracert -w <int timeout*1000> -h <max_hops> <target>`. Any other platform is the "Unsupported operating system" error |
| Traceroute.Tracer.constructor | geotraceroute/core/traceroute.py:18-24 | the tracer keeps its settings and starts with no process |
| Traceroute.NewTracer | geotraceroute/core/traceroute.py:18-31 | construction fails with "Could not resolve hostname: <target>" exactly when resolution fails; otherwise the tracer has the resolved address and no process |
| Traceroute.Tracer.Stop | geotraceroute/core/traceroute.py:33-38 | a running process is terminated and waited for; afterwards there is no process |
| Traceroute.Tracer.ParseOutput | geotraceroute/core/traceroute.py:250-257 | the loop returns exactly the parsed hops of the lines, in order |
| Traceroute.Tracer.Run | geotraceroute/core/traceroute.py:212-233 | an unsupported platform is an error with the command builder's message; otherwise the result is the parsed hops of the output |
| Traceroute.Tracer.ReadFirstLine | geotraceroute/core/traceroute.py:61-74 | the first line yields what parsing it alone yields (the header check agrees with the parser's) |
| Traceroute.Tracer.ReadRemainingLines | geotraceroute/core/traceroute.py:77-93 | the read loop extends the hops of the lines read so far to those of all the lines |
| Traceroute.Tracer.ReadHops | geotraceroute/core/traceroute.py:59-93 | the streamed hops are the parsed hops of the stripped lines |
| Traceroute.Tracer.RunStream | geotraceroute/core/traceroute.py:40-96 | an unsupported platform fails before a process starts; otherwise the stream yields the parsed hops of the stripped lines and ends with no process |
| IpInfo.ReputationScore | geotraceroute/core/ip_info.py:151-165 | the score is 0.8 exactly when the lower-cased organisation contains "google" or "cloudflare". It is 0.7 exactly when it contains neither but contains "amazon" or "microsoft". Otherwise it is 0.5. It always lies in [0, 1] |
| IpInfo.ScoreIgnoresCase | geotraceroute/core/ip_info.py:159 | two organisation texts equal up to letter case get the same score |
| IpInfo.TextOrEmpty | geotraceroute/core/ip_info.py:126 | `data.get(name, '')` followed by a string method succeeds exactly for a missing or textual member, giving "" or the text |
| IpInfo.Coordinate | geotraceroute/core/ip_info.py:127-128 | an empty part is None; a non-empty part is its decimal value, or an error when `float()` rejects it |
| IpInfo.ParseIpInfo | geotraceroute/core/ip_info.py:121-149 | the record echoes the address. It fails exactly when `loc` is not text, or `org` is not text while the coordinates parse. A `loc` whose numbers `float()` rejects gives the minimal record; text `loc` and `org` with numbers that convert always give a scored record, and a scored record has coordinates from `loc`, the score of `org`, and country, city and org copied from the reply |
| IpInfo.CoordinatesOfPair | geotraceroute/core/ip_info.py:126-128 | "lat,lon" with two numeric parts gives both coordinates |
| IpInfo.SplitOfPair | geotraceroute/core/ip_info.py:126 | splitting "a,b" on ',' gives [a, b] when neither part holds a comma |
| IpInfo.LookupResult | geotraceroute/core/ip_info.py:51-79 | the lookup never fails: anything but a 200 reply with a JSON body, and any parse failure, gives the address with every other field None; otherwise it gives the parsed record |
| IpInfo.LookupIsMinimalOrScored | geotraceroute/core/ip_info.py:62-79 | every looked-up record is minimal or carries a score of 0.5, 0.7 or 0.8 |
| IpInfo.IpInfoService.constructor | geotraceroute/core/ip_info.py:22-25 | a new service has no API key and no session |
| IpInfo.IpInfoService.SetApiKey | geotraceroute/core/ip_info.py:31-33 | the setter replaces the key and leaves the session alone |
| IpInfo.IpInfoService.RequestFor | geotraceroute/core/ip_info.py:52-60 | the request goes to https://ipinfo.io/<ip>/json. It carries "Bearer <key>" exactly when the key is non-empty |
| IpInfo.IpInfoService.GetSession | geotraceroute/core/ip_info.py:35-38 | an open session is reused; a missing or closed one is replaced by a fresh open one |
| IpInfo.IpInfoService.GetIpInfo | geotraceroute/core/ip_info.py:40-79 | sends the request for the address and returns the lookup result of the reply, leaving an open session and the same key |
| IpInfo.IpInfoService.Close | geotraceroute/core/ip_info.py:167-171 | an open session is closed and released; a missing or closed one is left as it is |
| Enrichment.LocalPlace | geotraceroute/core/data_processor.py:73-123 | a local hop is placed at the caller's location when both of its coordinates are truthy. Otherwise it is placed at the configured default when there is one, and at Unknown / Local Area / 0.0 / 0.0 when there is none. The place always has both coordinates |
| Enrichment.ConfiguredDefault | geotraceroute/core/data_processor.py:90-103 | a default exists exactly when both coordinates are set, non-empty and numeric. City and country fall back to "Unknown" |
| Enrichment.LocalEnriched | geotraceroute/core/data_processor.py:69-126 | a local hop keeps its own fields and gets its placement, "Local Network", no ASN, and a score of 0.0 exactly when reputation is requested |
| Enrichment.MockEnriched | geotraceroute/core/data_processor.py:127-138 | in test mode a public hop keeps its hop fields and is placed at Mountain View, United States (37.4056, -122.0775), with organization "Google LLC" and ASN 15169, and 0.8 exactly when reputation is requested |
| Enrichment.AfterDatabases | geotraceroute/core/data_processor.py:143-162 | the city record decides the place only when both of its coordinates are truthy. The ASN record sets organisation and ASN only when the city lookup did not raise. Nothing else changes |
| Enrichment.AfterRemote | geotraceroute/core/data_processor.py:165-180 | the remote service is not consulted once a location is found. When it is consulted and its record has two truthy coordinates, the location is found and the place and organisation become the record's, with nothing else changed; otherwise nothing changes. The ASN and the score never change |
| Enrichment.PublicEnriched | geotraceroute/core/data_processor.py:139-202 | a public hop keeps its own fields. Its ASN comes only from the databases. Its score is the remote score when requested and None otherwise |
| Enrichment.Enriched | geotraceroute/core/data_processor.py:28-209 | enrichment keeps the hop's own fields. A missing, '*'-marked or non-literal address gets nothing filled in. Without reputation requested there is no score |
| Enrichment.EnrichableIsLiteral | geotraceroute/core/data_processor.py:53-57 | a hop is looked up exactly when its address is an IP literal: the empty and '*' checks before `ip_address` are implied by it |
| Enrichment.LocalHopExamples | geotraceroute/core/data_processor.py:59-69 | hop 1 is local even at 8.8.8.8; at hop 3, 192.168.1.1 and 10.0.0.1 are local and 8.8.8.8 is not |
| Enrichment.EnrichedCoordinatesPaired | geotraceroute/core/data_processor.py:28-209 | no enriched record has one coordinate without the other |
| Enrichment.EnrichedScoreRange | geotraceroute/core/data_processor.py:125-202 | a score, when present, is 0.0, 0.5, 0.7 or 0.8 |
| Enrichment.CityFailureSkipsAsn | geotraceroute/core/data_processor.py:143-193 | when the city lookup raises, the ASN stays None and the organisation comes only from the remote service or the static table |
| Enrichment.DatabaseLocationWins | geotraceroute/core/data_processor.py:145-162 | a city record with two truthy coordinates decides the place, whatever the remote service says, and the organisation is the ASN database's (None when that lookup raised) |
| Enrichment.RemoteLocationUsed | geotraceroute/core/data_processor.py:165-178 | when the databases do not locate a public hop and the remote record has two truthy coordinates, the hop's place and organisation are the remote record's |
| Enrichment.NoLocationFound | geotraceroute/core/data_processor.py:139-193 | when nobody locates a public hop outside 84.116.x.x, it has no place, and its organisation is the ASN database's when the city lookup did not raise, else None |
| Enrichment.StaticTableFallback | geotraceroute/core/data_processor.py:183-193 | an unlocated 84.116.x.x hop is placed in Dublin, Ireland, owned by "Aorta Network" |
| Enrichment.CountWithIp | geotraceroute/core/data_processor.py:256 | the number of hops with an address is at most the number of hops |
| Enrichment.CountRecordsWithIp | geotraceroute/core/data_processor.py:256 | the same count taken over the hops the enriched records carry, at most their number |
| Enrichment.SameIpsSameCount | geotraceroute/core/data_processor.py:256 | hops with the same addresses, index by index, count the same |
| Enrichment.SummaryCountsRecords | geotraceroute/core/data_processor.py:249-256 | counting addresses on the hops or on their enriched records gives the same number |
| Enrichment.EnrichAll | geotraceroute/core/data_processor.py:249-253 | one record per hop, in order, each the enrichment of its hop, with the hop's own fields unchanged |
| Enrichment.EnrichAllStep | geotraceroute/core/data_processor.py:250-253 | enriching one more hop appends its record |
| Enrichment.CollectedHops | geotraceroute/core/data_processor.py:238-244 | collecting hops fails exactly when the platform is unsupported. Otherwise a hop is collected exactly when some line parses to it, the line being stripped first in test mode (`run_stream`) and taken as it is otherwise (`run`); at most one hop per line |
| Enrichment.DataProcessor.constructor | geotraceroute/core/data_processor.py:11-26 | the processor records test mode and owns a fresh ipinfo service with no key and no session |
| Enrichment.DataProcessor.EnrichHopData | geotraceroute/core/data_processor.py:28-209 | the step-by-step record equals the enrichment specification, and the service's key is unchanged |
| Enrichment.DataProcessor.EnrichLocal | geotraceroute/core/data_processor.py:69-126 | the local branch's updates produce the local record |
| Enrichment.DataProcessor.EnrichPublic | geotraceroute/core/data_processor.py:139-202 | the public branch, with its `location_found` flag, produces the public record |
| Enrichment.DataProcessor.ProcessTracerouteStream | geotraceroute/core/data_processor.py:211-223 | the stream yields exactly the enriched hops, in order |
| Enrichment.DataProcessor.ProcessTraceroute | geotraceroute/core/data_processor.py:225-266 | the summary has the target, one enriched record per hop in order, `total_hops` equal to the number of hops, and `successful_hops` equal to the hops with an address |
| Enrichment.DataProcessor.ProcessTracerouteOf | geotraceroute/core/data_processor.py:236-266 | on a tracer, the summary covers the collected hops (streamed in test mode, run otherwise), or carries the platform error |
| Enrichment.IpInfoEnriched | geotraceroute/core/data_processor.py:281-341 | a hop without an address has everything None but its number and RTTs. A 192.168./10./172.16. address is "Local Network" with score 0.5 and no place. Any other address takes place, owner and score from its lookup |
| Enrichment.IpInfoEnrichAll | geotraceroute/core/data_processor.py:281-341 | one record per hop, in order, each the ipinfo-only enrichment of its hop with that hop's reply |
| Enrichment.CountTruthyAddress | geotraceroute/core/data_processor.py:364 | the truthy-address count is at most the number of records |
| Enrichment.IpInfoStreamOutcome | geotraceroute/core/data_processor.py:268-343 | the ipinfo-only stream fails with the resolution message when the target does not resolve, and with the platform error of `run_stream`; otherwise record i is the ipinfo-only enrichment of hop i of the stripped lines, with hop i's reply |
| Enrichment.IpInfoSummaryOutcome | geotraceroute/core/data_processor.py:344-364 | the ipinfo-only summary fails exactly when its stream does; otherwise it holds the target, the streamed records, the number of parsed hops and the truthy-address count |
| Enrichment.IpInfoSummaryOf | geotraceroute/core/data_processor.py:345-365 | the batch form has the streamed records, their number as `total_hops`, and the number of records with a truthy `ip_address` as `successful_hops` |
| Enrichment.SuccessCountsAgree | geotraceroute/core/data_processor.py:356-365 | on parsed hops the ipinfo-only batch counts the same successful hops as `process_traceroute` |
| ApiModels.Required | geotraceroute/api/models.py:5 | a required field has no error exactly when it is given; a missing one is a "missing" error at its own location |
| ApiModels.WithDefault | geotraceroute/api/models.py:6-12 | an optional field takes its default when missing, None when null, and its value when given |
| ApiModels.TargetErrors | geotraceroute/api/models.py:5 | the target is accepted exactly when it is given with at least one character; "" is "too short" |
| ApiModels.MaxHopsErrors | geotraceroute/api/models.py:6-11 | `max_hops` is accepted exactly when it is absent, null, or between 1 and 64. Below 1 is "too small"; above 64 is "too large" |
| ApiModels.ValidateTracerouteRequest | geotraceroute/api/models.py:4-12 | a request is valid exactly when the target has a character and a given `max_hops` lies in 1..64. A given `max_hops` or `include_reputation` is kept, null gives None, and a missing one defaults to 30 and False. Errors are only on the target and `max_hops` |
| ApiModels.RejectedRequests | geotraceroute/api/models.py:5-11 | an empty target, a missing target and `max_hops` -1 are each rejected with the matching single error |
| ApiModels.ValidateClientLocation | geotraceroute/api/models.py:14-18 | a location is valid exactly when latitude and longitude are given. City and country are kept when given and None otherwise |
| ApiModels.HopInfoOf | geotraceroute/api/models.py:20-31 | an enriched record fits `HopInfo` exactly when it has an RTT list. Every member is copied: number, address, host, RTTs, country, city, coordinates, organisation, ASN and score |
| ApiModels.HopsOf | geotraceroute/api/models.py:35 | a hop list fits exactly when every record has an RTT list, giving record i's `HopInfo` at index i; otherwise the errors are the hop errors |
| ApiModels.HopErrors | geotraceroute/api/models.py:35 | there are no hop errors exactly when every record has an RTT list |
| ApiModels.HopErrorsLocated | geotraceroute/api/models.py:35 | every hop error is a null `rtt_ms` at the index of a record without an RTT list, and every such record has its error |
| ApiModels.ResponseOf | geotraceroute/api/models.py:33-37 | a summary fits `TracerouteResponse` exactly when every hop has an RTT list, keeping the target, the validated hops and both totals; otherwise the errors are the hop errors |
| ApiModels.ParsedSummaryFitsResponse | geotraceroute/api/models.py:20-37 | every summary built from parsed output fits the response model |
| Routes.WithClientLocation | geotraceroute/api/routes.py:86-92 | only a record numbered 1, and only when there is a caller location, has its place replaced by that location. Nothing but the place changes |
| Routes.FirstRtt | geotraceroute/api/routes.py:99 | the frame's `rtt` is the first RTT, or 0 when the list is empty or None |
| Routes.HopFrames | geotraceroute/api/routes.py:84-100 | one frame per enriched record, in order |
| Routes.HopFrameOf | geotraceroute/api/routes.py:86-99 | a hop frame carries the record, `hop` equal to its number and `rtt` equal to its first RTT; only hop 1 with a caller location has its place replaced |
| Routes.BodyFrames | geotraceroute/api/routes.py:83-107 | the `try` block yields one hop frame per record then "completed", or the single error frame, and never a done frame |
| Routes.GeneratorFrames | geotraceroute/api/routes.py:64-118 | the stream always ends with exactly one done frame. On success it is the hop frames, then "completed", then done, with no error frame. On failure it is the error frame, then done |
| Routes.StreamOutcome | geotraceroute/api/routes.py:71-84 | the stream fails with "Could not resolve hostname" when the target does not resolve, and otherwise fails exactly when the platform is unsupported (with the default timeout 1 s and 3 retries). On success record i is the enrichment of the i-th hop parsed from the stripped lines |
| Routes.RunOutcome | geotraceroute/api/routes.py:84 | enriching a tracer's stream fails exactly when its command cannot be built. On success there is one record per hop parsed from the stripped lines, each keeping its hop's fields and equal to its enrichment; the hops are those collected in test mode |
| Routes.ClientLocationFor | geotraceroute/api/routes.py:26-62 | the query location wins when both coordinates are truthy. Without it, a missing client or one of 127.0.0.1, localhost and ::1 gets None, and any other client gets its ipinfo.io location when that has two truthy coordinates. A returned location always has two truthy coordinates |
| Routes.OverrideMatchesClientInfo | geotraceroute/api/routes.py:86-92 | for an enrichable hop 1 and a located caller, overriding the record gives exactly what enrichment with that caller's location gives |
| Routes.WithClientOnFirst | geotraceroute/api/routes.py:216-223 | the batch override changes only the first record's place, and nothing at all without a caller location |
| Routes.SameAddressesSameCount | geotraceroute/api/routes.py:216-223 | records with the same addresses have the same address count |
| Routes.OverrideKeepsCounts | geotraceroute/api/routes.py:216-225 | the override keeps `successful_hops` equal to the count over the returned records |
| Routes.BatchOutcome | geotraceroute/api/routes.py:192-231 | the batch endpoint fails on an unresolvable target or an unsupported platform. Otherwise the summary is for the target and counts the collected hops and those with an address |
| Routes.BatchRecords | geotraceroute/api/routes.py:208-231 | in a batch answer, record i is the enrichment of collected hop i. The one exception: a caller location replaces the first record's place. Without a caller location, the records are exactly the enriched hops |
| Routes.BatchCountsRecords | geotraceroute/api/routes.py:210-225 | a batch summary's totals are its record count and its address count |
| Routes.YieldHopFrames | geotraceroute/api/routes.py:83-100 | the loop yields exactly the hop frames and counts the records |
| Routes.Server.constructor | geotraceroute/api/routes.py:20-23 | the processor and the routes' ipinfo service are distinct fresh objects, and no trace is current |
| Routes.Server.Begin | geotraceroute/api/routes.py:71-78 | an unresolvable target fails with nothing changed. Otherwise the new tracer (1 s, 3 retries, no process) becomes current and a non-empty key is set on the routes' service |
| Routes.Server.Finish | geotraceroute/api/routes.py:111-116 | the tracer is stopped. The current reference is cleared only when it still is this tracer |
| Routes.Server.StreamBody | geotraceroute/api/routes.py:83-110 | the body frames are those of the tracer's outcome, the tracer ends with no process, and the processor's key is untouched |
| Routes.Server.TracerouteGenerator | geotraceroute/api/routes.py:64-118 | the frames are the generator frames of the stream outcome. A started trace is no longer current afterwards; a failed start leaves the reference alone. The key reaches the routes' service but not the processor's |
| Routes.Server.StartTraceroute | geotraceroute/api/routes.py:167-190 | the start endpoint streams the generator frames for the validated request. A failed resolution leaves the current tracer as it was; otherwise the current reference ends cleared. After a resolution, a non-empty key replaces the routes' service key. Without one the key is unchanged, and the processor's key is never touched |
| Routes.Server.StopTraceroute | geotraceroute/api/routes.py:152-165 | the endpoint always answers "stopped". A current tracer is stopped and the reference cleared |
| Routes.Server.GetClientLocation | geotraceroute/api/routes.py:26-62 | the dependency returns the caller location specified above and leaves the key alone |
| Routes.Server.RunTraceroute | geotraceroute/api/routes.py:192-231 | the batch endpoint returns the batch outcome of the validated request. The routes' service key becomes a non-empty given key once the tracer exists, and is otherwise unchanged. The processor's key is never touched |
| Routes.Server.TracerouteSummary | geotraceroute/api/routes.py:233-276 | the summary endpoint returns the same batch outcome for its query parameters. The routes' service key becomes a non-empty given key once the tracer exists, and is otherwise unchanged. The processor's key is never touched |
| WebClient.SumWithin | geotraceroute/web/static/js/app.js:605 | a sum of values within [lo, hi] lies within n·lo and n·hi |
| WebClient.MeanWithin | geotraceroute/web/static/js/app.js:605 | the average of values within [lo, hi] lies within [lo, hi] |
| WebClient.AverageRtt | geotraceroute/web/static/js/app.js:541-542 | a hop has an average exactly when `rtt_ms` is a non-empty array, and the average is the mean |
| WebClient.RoundedScaled | geotraceroute/web/static/js/app.js:606 | the scaled value rounds to the nearest integer, halves up |
| WebClient.FixedMagnitude | geotraceroute/web/static/js/app.js:606 | the layout of `toFixed`: all digits, with a point before the last f digits when f > 0. The value shown is stated by FixedMagnitudeValue |
| WebClient.Fixed | geotraceroute/web/static/js/app.js:606 | `toFixed` text starts with '-' exactly for a negative value, is never "*", and has f digits after a point |
| WebClient.FixedMagnitudeValue | geotraceroute/web/static/js/app.js:606 | the digits `toFixed` shows for a non-negative value, read without the point, are the value times 10^f rounded to the nearest integer |
| WebClient.FixedValue | geotraceroute/web/static/js/app.js:606 | after its sign, `toFixed` shows the magnitude times 10^f, rounded, with its point before the last f digits |
| WebClient.PointedDigitsValue | geotraceroute/web/static/js/app.js:606 | padding with leading zeros and inserting the point leave the value of the digits unchanged |
| WebClient.LeadingZerosValue | geotraceroute/web/static/js/app.js:606 | leading zeros leave the value of a digit run unchanged |
| WebClient.HopsTextZero | geotraceroute/web/static/js/app.js:754-758 | the hop-count text reads "0 hops" exactly for a count of zero |
| WebClient.HopsText | geotraceroute/web/static/js/app.js:754-758 | the hop-count text is the count in decimal followed by " hops" |
| WebClient.StatsFor | geotraceroute/web/static/js/app.js:754-766 | the panel reads "0 hops" exactly for a count of zero and "0 ms" exactly when there are no latencies |
| WebClient.LatencyText | geotraceroute/web/static/js/app.js:760-766 | "0 ms" exactly when there are no latencies; otherwise the mean to two places followed by " ms" |
| WebClient.LocationText | geotraceroute/web/static/js/app.js:610-615 | "city, country" when both are present, the country alone when only it is, and "" exactly when there is no country |
| WebClient.RttText | geotraceroute/web/static/js/app.js:603-607 | the RTT text is "*" exactly when the hop has no average |
| WebClient.FormatHopResult | geotraceroute/web/static/js/app.js:580-665 | a null hop is "Error: Invalid hop data". An error is "Error: <error>". A completion is "Traceroute completed." |
| WebClient.DetailParts | geotraceroute/web/static/js/app.js:640-657 | nothing follows the address exactly when there is no RTT, location, organisation or shown score |
| WebClient.ReputationText | geotraceroute/web/static/js/app.js:624-627 | the safety text is present exactly when scores are shown and the hop has one, and reads "Safety: ..." ending in "/100" |
| WebClient.AddressPart | geotraceroute/web/static/js/app.js:632-638 | no address gives the "* * *" span; an address gives its `hop-ip` span, followed by more exactly when there is a host name |
| WebClient.AddressPartShape | geotraceroute/web/static/js/app.js:632-638 | no address gives the "* * *" span; an address gives a `hop-ip` span |
| WebClient.LineVsTimeout | geotraceroute/web/static/js/app.js:659-662 | a line equals number plus "* * *" exactly when the address is the timeout and nothing follows, and a built line never equals the "No response" line |
| WebClient.NoResponseExactly | geotraceroute/web/static/js/app.js:630-662 | an ordinary hop renders "<n>. No response" exactly when it shows nothing beyond its number; otherwise it renders the number, address and detail parts |
| WebClient.LineStyle | geotraceroute/web/static/js/app.js:570 | a hop line is styled as an error exactly when its payload has an error, and otherwise as success |
| WebClient.ResultsOf | geotraceroute/web/static/js/app.js:570 | one result line per hop, in order |
| WebClient.RttAverages | geotraceroute/web/static/js/app.js:556-559 | the latency list gains at most one average per hop |
| WebClient.EventsReassemble | geotraceroute/web/static/js/app.js:424-428 | the complete events joined with "\n\n", then the new buffer, give back the text received. The buffer holds no "\n\n" |
| WebClient.ReassemblyStep | geotraceroute/web/static/js/app.js:424-428 | splitting after each chunk yields the same events as splitting the whole text, so the events do not depend on how the stream was cut |
| WebClient.EventData | geotraceroute/web/static/js/app.js:435-437 | only "data: " events carry data. The data is the trimmed rest, and a blank rest is skipped |
| WebClient.AcceptedHop | geotraceroute/web/static/js/app.js:441-450 | an event is accepted exactly when its parsed payload is not a completion and has a `hop_number` |
| WebClient.AcceptedHops | geotraceroute/web/static/js/app.js:434-476 | at most one hop per event, and no accepted hop is a completion or lacks a number |
| WebClient.AcceptedHopsAppend | geotraceroute/web/static/js/app.js:434-476 | the hops of two event lists are the hops of the first followed by those of the second |
| WebClient.AcceptedHopsNext | geotraceroute/web/static/js/app.js:434-450 | one more event adds what it delivers, and the hops stay empty exactly when they were and the event delivers none |
| WebClient.Delivered | geotraceroute/web/static/js/app.js:435-450 | one event delivers exactly its accepted hop |
| WebClient.Absorb | geotraceroute/web/static/js/app.js:529-577 | absorbing hops appends them to the hops, their averages to the latencies and their lines to the results |
| WebClient.AbsorbAppend | geotraceroute/web/static/js/app.js:455 | absorbing two batches in turn equals absorbing them together |
| WebClient.Page.constructor | geotraceroute/web/static/js/app.js:1-11 | the page starts with no hops, latencies or results, no valid hop, and "0 hops" / "0 ms" |
| WebClient.Page.BeginTrace | geotraceroute/web/static/js/app.js:223-259 | a blank target changes nothing. Otherwise the page is cleared and shows only "Tracing route to <target>..." |
| WebClient.Page.ProcessSingleHop | geotraceroute/web/static/js/app.js:529-577 | a hop is absorbed and its location returned; a null hop changes nothing. The returned count is the number of hops |
| WebClient.Page.UpdateStats | geotraceroute/web/static/js/app.js:754-767 | the panel shows the count's text and the latency text |
| WebClient.Page.HandleEvent | geotraceroute/web/static/js/app.js:434-470 | an event absorbs its accepted hop, marks a valid hop, and refreshes count and stats; any other event changes nothing |
| WebClient.Page.HandleEvents | geotraceroute/web/static/js/app.js:434-476 | the loop absorbs exactly the accepted hops of the events, in order |
| WebClient.Page.ProcessStream | geotraceroute/web/static/js/app.js:370-526 | the page absorbs exactly the accepted hops of the complete events of the whole stream. It ends with stats for the stream's own hop count. It reports success exactly when a hop arrived or hops were already present |
| WebClient.FinalStatsShowNoHops | geotraceroute/web/static/js/app.js:499-504 | the final stats as written always read "0 hops"; the stream's count reads "0 hops" only when no hop arrived |
| WebClient.FinalStatsAsWritten | geotraceroute/web/static/js/app.js:499-504 | the final update reads "0 hops" exactly when the page-level count is zero, and "0 ms" exactly when there are no latencies |
| Common.NatToStringValue | geotraceroute/web/static/js/app.js:754-758 | the decimal text written for a count reads back as that count |
| Common.JoinSplit | geotraceroute/web/static/js/app.js:427 | joining the pieces of a split with the separator gives back the text |
| Common.SplitJoin | geotraceroute/web/static/js/app.js:427-428 | splitting a join of clean pieces and a separator-free tail gives those pieces back |
| Common.ParseFloatAccepts | geotraceroute/core/ip_info.py:127-128 | `float()` reads "23.5", "-6.25", ".5" and "7" as those numbers |
| Common.ParseFloatRefuses | geotraceroute/core/ip_info.py:127-128 | `float()` refuses "", ".", "-" and "1.2.3" |
| Common.IpLiteralExamples | geotraceroute/core/data_processor.py:57 | `ip_address` reads 8.8.8.8 as 0x08080808 and refuses 256.1.1.1, 01.2.3.4, 1.2.3 and "*" |
| Common.PublicAddressParses | geotraceroute/core/data_processor.py:57 | 8.8.8.8 reads as 0x08080808 |
| Common.MalformedAddressesRefused | geotraceroute/core/data_processor.py:57 | 256.1.1.1 (octet out of range), 01.2.3.4 (leading zero), 1.2.3 (three octets) and "*" are not address literals |
| Common.IpLiteralStartsWithDigit | geotraceroute/core/data_processor.py:54-57 | an IP literal is never empty and starts with a digit |
| Common.LocalAddressesParse | geotraceroute/core/data_processor.py:62 | 192.168.1.1 and 10.0.0.1 read as their 32-bit values |
| Common.HomeAddressParses | geotraceroute/core/data_processor.py:62 | 192.168.1.1 reads as 0xC0A80101 |
| Common.TenAddressParses | geotraceroute/core/data_processor.py:62 | 10.0.0.1 reads as 0x0A000001 |
| Common.PrivateValues | geotraceroute/core/data_processor.py:63 | the private-network table holds 192.168.1.1 and 10.0.0.1 and not 8.8.8.8 |
| Common.PrivateAddressExamples | geotraceroute/core/data_processor.py:62-63 | `is_private` holds for 192.168.1.1 and 10.0.0.1 and not for 8.8.8.8 |

## Left out

- Process spawning and reading its stdout (traceroute.py:53-58, :220-225) are not modelled. The output is a sequence of lines, and the `readline()` end of file is the end of that sequence.
- DNS resolution (`socket.gethostbyname`) is not modelled. Whether the target resolves is a parameter.
- HTTP calls through aiohttp, and the 5 s timeout, are not modelled. The reply is a parameter: no reply, or a status with an optional JSON body.
- `get_ip_info_sync` (ip_info.py:82-119) is left out. It duplicates `get_ip_info` with the requests library.
- GeoIP reader construction, database paths, `__del__` and `load_dotenv` are not modelled. The database answers and the `DEFAULT_*` variables are parameters. An exception while reading them is not modelled.
- `float()` is a decimal parser: sign, digits and one point. Exponents, "inf", "nan", underscores and surrounding spaces are not accepted. Reals are exact, so binary floating point rounding is not modelled.
- `WebClient.Fixed`: it models `toFixed` exactly on reals and rounds halves up. Binary rounding of the value, and exponential notation at 1e21 and above, are not modelled.
- IPv6 literals are left out. An address is an IP literal only as an IPv4 dotted quad, with no leading zeros.
- `is_private` uses the IPv4 table of Python 3.9 to 3.12.3.
- `json.dumps`, the `data: ...\n\n` wrapping, FastAPI wiring (`StreamingResponse`, `Depends`, `HTTPException`), the health endpoint and the GET stream endpoint are not modelled. Those endpoints only pass their arguments on. Frames are values.
- pydantic coercion is left out. For example, the text "5" is not accepted for an integer. A value of the wrong JSON type is not modelled, and neither is the order pydantic reports errors in.
- The module-level `current_traceroute` is modelled sequentially, so races between concurrent requests are left out. Logging, `print` and `asyncio.sleep` are left out.
- A stop request during the stream is not modelled separately. It is the stream ending early: a shorter chunk list.
- The reader's error path and the `catch` around the stream (app.js:494-497) are left out.
- The `typeof hop === 'string'` branch of `formatHopResult` (app.js:584-586) is left out. The JSON parser is a parameter, and the events that reach the page's hop handling are objects.
- Payload members of other JSON types (a number where text is expected, and so on) are not modelled. A member is missing, null or of its expected type.
- `trim()`, Python's `str.strip()` and the regular-expression classes `\s` and `\d` are modelled on ASCII only: the ASCII whitespace Python recognises (space, tab, line feed, vertical tab, form feed, carriage return and the separators 0x1C-0x1F) and the digits 0-9. Whitespace and digits beyond ASCII are not modelled, and JavaScript's `trim()` is given the same character set.
- DOM, Leaflet markers and polylines, the progress bar, the results header badge, localStorage, geolocation and fetch are not modelled.
- `calculateDistance` (app.js:740-751) is left out. It is never called.
- `processEvent`/`processHopData` (app.js:852-925) are left out. They are dead code that calls undefined helpers.
- `Traceroute.ParseHop`: its contract states the shape of every hop and the blank/header case. The result for each line shape is stated by separate lemmas: `MixedLineParses`, `AddressLineParses`, `TripleStarLineParses` and `WindowsReplyParses` give the hop for every line of those shapes; `MixedShapeFirst`, `AddressLineShape`, `TripleStarLineShape`, `WindowsTimeoutShape` and `WindowsTokenClassified` give it for every line the corresponding pattern matches; `FallbackNeverFires` covers the unreachable numeric fallback; `NoShapeGivesNone`, `NoHopNumberGivesNone` and `FirstCharGivesNone` cover lines that no pattern matches.
- `Traceroute.WindowsReplyParses`: it covers tracert reply lines with a space before each "ms", as tracert prints them. A line written "12ms  13ms  14ms  host" never reaches the Windows branch: the main pattern matches it first and reads "12ms" as the address, so `AddressLineParses` gives its hop.
- `Traceroute.Tracer.Run` and `Traceroute.Tracer.RunStream` take the output as the same sequence of lines. `run` splits the output with `splitlines()` (traceroute.py:253), which also breaks at carriage return, vertical tab, form feed and the separators 0x1C-0x1E. `run_stream` reads with `readline()`, which breaks only at line feed, and then strips each line. How the two differ on output that contains those other characters is not modelled.
- `Enrichment.PublicEnriched`: its contract states the kept fields, the ASN and the score. The placement and organisation are stated case by case by `DatabaseLocationWins` (the databases locate the hop), `RemoteLocationUsed` (only the remote service does), `StaticTableFallback` (nobody does, 84.116.x.x) and `NoLocationFound` (nobody does, any other address), and by `AfterRemote`'s contract.
- `WebClient.FormatHopResult`: its contract states the error and completion lines. The hop line itself is stated by `NoResponseExactly`.

## Findings

| source | as written | input that shows it | evidently intended | confidence | as-written member | corrected member |
|---|---|---|---|---|---|---|
| geotraceroute/web/static/js/app.js:378, :499-504 | `processStream` declares its hop counter with `let hopCount` inside the `try` block. The final `updateStats(hopCount, latencies)` after the block reads the global `hopCount`, which nothing live writes, so it stays 0 | a stream that delivers three hops: the panel ends on "0 hops" while three hops are listed | the final stats show the stream's own hop count | not executed | WebClient.FinalStatsShowNoHops | WebClient.Page.ProcessStream |
