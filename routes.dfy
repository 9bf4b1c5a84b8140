/** The HTTP endpoints around a trace (geotraceroute/api/routes.py): the
    server-sent event stream of `traceroute_generator`, the module-level
    reference to the running tracer that the stop endpoint uses, the
    caller's location, and the batch endpoints that put that location on
    the first hop. Frames are values: `json.dumps` and the "data: ...\n\n"
    wrapping are not modelled. */
module Routes {
  import opened Common
  import opened Traceroute
  import opened IpInfo
  import opened Enrichment
  import opened ApiModels

  /** One server-sent event of the trace stream. */
  datatype Frame =
    | HopFrame(record: EnrichedHop, hop: nat, rtt: real)  // the record plus `hop` and `rtt`
    | CompletedFrame                                       // {"status": "completed"}
    | ErrorFrame(error: string)                            // {"error": str(e)}
    | DoneFrame                                            // {"done": true}

  /** The place of a caller's location dictionary. */
  function ClientPlace(c: ClientInfo): Place {
    Place(c.city, c.country, c.latitude, c.longitude)
  }

  /** Enrichment never touches anything but the place. */
  predicate SameExceptPlace(a: EnrichedHop, b: EnrichedHop) {
    a == WithPlace(b, PlaceOf(a))
  }

  /** The stream's hop-1 rule: a record numbered 1 takes the caller's
      location, when there is one; every other record is left alone. */
  function WithClientLocation(r: EnrichedHop, client: Option<ClientInfo>): (s: EnrichedHop)
    ensures SameExceptPlace(s, r)
    ensures r.hopNumber == 1 && client.Some? ==> PlaceOf(s) == ClientPlace(client.value)
    ensures !(r.hopNumber == 1 && client.Some?) ==> s == r
  {
    if r.hopNumber == 1 && client.Some? then WithPlace(r, ClientPlace(client.value)) else r
  }

  /** The `rtt` member of a hop frame: the first reply time, or 0 when the list
      is empty or absent. */
  function FirstRtt(rtts: Option<seq<real>>): (r: real)
    ensures rtts.Some? && rtts.value != [] ==> r == rtts.value[0]
    ensures rtts.None? || rtts.value == [] ==> r == 0.0
  {
    if rtts.Some? && |rtts.value| > 0 then rtts.value[0] else 0.0
  }

  /** The frame of one enriched record. */
  function HopFrameOf(r: EnrichedHop, client: Option<ClientInfo>): (f: Frame)
    ensures f.HopFrame? && f.hop == r.hopNumber && f.rtt == FirstRtt(r.rttMs)
    ensures SameExceptPlace(f.record, r)
    ensures PlaceOf(f.record) == (if r.hopNumber == 1 && client.Some? then ClientPlace(client.value) else PlaceOf(r))
  {
    HopFrame(WithClientLocation(r, client), r.hopNumber, FirstRtt(r.rttMs))
  }

  /** One frame per record, in order. */
  function HopFrames(records: seq<EnrichedHop>, client: Option<ClientInfo>): (fs: seq<Frame>)
    ensures |fs| == |records|
    ensures forall i :: 0 <= i < |records| ==> fs[i] == HopFrameOf(records[i], client)
  {
    if records == [] then []
    else HopFrames(records[..|records| - 1], client) + [HopFrameOf(records[|records| - 1], client)]
  }

  /** The whole stream for an outcome: an error frame, or the hop frames and the
      completion frame; and in both cases the final done frame. */
  function GeneratorFrames(outcome: Result<seq<EnrichedHop>>, client: Option<ClientInfo>): (fs: seq<Frame>)
    ensures |fs| >= 2 && fs[|fs| - 1] == DoneFrame
    ensures forall i :: 0 <= i < |fs| - 1 ==> !fs[i].DoneFrame?
    ensures outcome.Err? ==> fs == [ErrorFrame(outcome.message), DoneFrame]
    ensures outcome.Ok? <==> forall i :: 0 <= i < |fs| ==> !fs[i].ErrorFrame?
    ensures outcome.Ok? ==> |fs| == |outcome.value| + 2 && fs[|outcome.value|] == CompletedFrame
    ensures outcome.Ok? ==> forall i :: 0 <= i < |outcome.value| ==> fs[i] == HopFrameOf(outcome.value[i], client)
  {
    var fs := BodyFrames(outcome, client) + [DoneFrame];
    if outcome.Err? then
      assert fs[0].ErrorFrame?;
      fs
    else fs
  }

  /** The frames of the generator's `try` block: the hop frames and the
      completion frame, or the error frame. */
  function BodyFrames(outcome: Result<seq<EnrichedHop>>, client: Option<ClientInfo>): (fs: seq<Frame>)
    ensures outcome.Err? ==> fs == [ErrorFrame(outcome.message)]
    ensures outcome.Ok? ==> |fs| == |outcome.value| + 1 && fs[|outcome.value|] == CompletedFrame
    ensures outcome.Ok? ==> forall i :: 0 <= i < |outcome.value| ==> fs[i].HopFrame? && fs[i].hop == outcome.value[i].hopNumber
    ensures forall i :: 0 <= i < |fs| ==> !fs[i].DoneFrame?
  {
    match outcome
    case Err(message) => [ErrorFrame(message)]
    case Ok(records) => HopFrames(records, client) + [CompletedFrame]
  }

  /** What the stream's trace comes to: the tracer cannot be created when the
      target does not resolve, `run_stream` raises on an unsupported platform,
      and otherwise every hop of the output is enriched. The stream creates
      its tracer with the default timeout (1 s) and retry count (3). */
  function StreamOutcome(target: string, maxHops: Option<int>, resolved: Option<string>, os: string,
                         lines: seq<string>, includeReputation: bool, env: Environment, testMode: bool,
                         answers: nat -> Lookups): (r: Result<seq<EnrichedHop>>)
    ensures resolved.None? ==> r == Err("Could not resolve hostname: " + target)
    ensures resolved.Some? ==> (r.Err? <==> BuildCommand(os, target, maxHops, 1.0, 3).Err?)
    ensures r.Ok? ==> |r.value| <= |lines|
    ensures r.Ok? ==> var hops := ParsedHops(StripAll(lines));
      |r.value| == |hops| && forall i :: 0 <= i < |hops| ==>
        r.value[i] == Enriched(hops[i], includeReputation, None, env, testMode, answers(i))
  {
    if resolved.None? then Err("Could not resolve hostname: " + target)
    else RunOutcome(target, maxHops, 1.0, 3, os, lines, includeReputation, env, testMode, answers)
  }

  /** What `run_stream` and the enrichment of its hops come to once the tracer exists. */
  function RunOutcome(target: string, maxHops: Option<int>, timeout: real, retries: int, os: string,
                      lines: seq<string>, includeReputation: bool, env: Environment, testMode: bool,
                      answers: nat -> Lookups): (r: Result<seq<EnrichedHop>>)
    ensures r.Err? <==> BuildCommand(os, target, maxHops, timeout, retries).Err?
    ensures r.Ok? ==> |r.value| <= |lines|
    ensures r.Ok? ==> var hops := ParsedHops(StripAll(lines));
      |r.value| == |hops| && forall i :: 0 <= i < |hops| ==>
        KeepsHop(r.value[i], hops[i]) && r.value[i] == Enriched(hops[i], includeReputation, None, env, testMode, answers(i))
    ensures r.Ok? ==> CollectedHops(true, target, maxHops, timeout, retries, os, lines) == Ok(ParsedHops(StripAll(lines)))
  {
    var cmd := BuildCommand(os, target, maxHops, timeout, retries);
    if cmd.Err? then Err(cmd.message)
    else Ok(EnrichAll(ParsedHops(StripAll(lines)), includeReputation, env, testMode, answers))
  }

  /** `include_reputation` of a validated request, as the processor tests it. */
  function Truthy(b: Option<bool>): bool {
    b == Some(true)
  }

  /** The loopback addresses for which no location is looked up. */
  const Loopback: set<string> := {"127.0.0.1", "localhost", "::1"}

  /** `get_client_location`: the query's location when both of its
      coordinates are truthy; otherwise none for a request without a client
      address or from a loopback address; otherwise the ipinfo.io record of
      the client's address (`reply` is what the request came back with) when
      both of its coordinates are truthy. */
  function ClientLocationFor(lat: Option<real>, lon: Option<real>, city: Option<string>, country: Option<string>,
                             host: Option<string>, reply: HttpReply): (r: Option<ClientInfo>)
    ensures r.Some? ==> NonZero(r.value.latitude) && NonZero(r.value.longitude)
    ensures NonZero(lat) && NonZero(lon) ==> r == Some(ClientInfo(lat, lon, city, country))
    ensures !(NonZero(lat) && NonZero(lon)) && (host.None? || host.value in Loopback) ==> r == None
    ensures !(NonZero(lat) && NonZero(lon)) && host.Some? && host.value !in Loopback ==>
      var info := LookupResult(host.value, reply);
      && (r.Some? <==> NonZero(info.latitude) && NonZero(info.longitude))
      && (r.Some? ==> r.value == ClientInfo(info.latitude, info.longitude, info.city, info.country))
  {
    if NonZero(lat) && NonZero(lon) then Some(ClientInfo(lat, lon, city, country))
    else if host.None? || host.value in Loopback then None
    else
      var info := LookupResult(host.value, reply);
      if NonZero(info.latitude) && NonZero(info.longitude)
      then Some(ClientInfo(info.latitude, info.longitude, info.city, info.country))
      else None
  }

  /** The stream does not pass the caller's location to the processor but puts
      it on hop 1 afterwards; for a hop 1 with an address this gives exactly the
      record the processor would have built had it been given the location. */
  lemma {:induction false} OverrideMatchesClientInfo(hop: Hop, includeReputation: bool, client: ClientInfo,
                                                     env: Environment, testMode: bool, look: Lookups)
    requires hop.hopNumber == 1 && Enrichable(hop)
    requires NonZero(client.latitude) && NonZero(client.longitude)
    ensures WithClientLocation(Enriched(hop, includeReputation, None, env, testMode, look), Some(client))
         == Enriched(hop, includeReputation, Some(client), env, testMode, look)
  {
    assert IsLocalHop(hop);
    var without := LocalEnriched(hop, includeReputation, None, env);
    var with := LocalEnriched(hop, includeReputation, Some(client), env);
    assert PlaceOf(with) == ClientPlace(client);
    assert WithPlace(without, ClientPlace(client)) == with;
  }

  /** The batch endpoints' rule: the first record takes the caller's location
      when there is one and there is a record; nothing else changes. */
  function WithClientOnFirst(s: TraceSummary, client: Option<ClientInfo>): (t: TraceSummary)
    ensures t.target == s.target && t.totalHops == s.totalHops && t.successfulHops == s.successfulHops
    ensures |t.hops| == |s.hops| && forall i :: 1 <= i < |s.hops| ==> t.hops[i] == s.hops[i]
    ensures forall i :: 0 <= i < |s.hops| ==> SameExceptPlace(t.hops[i], s.hops[i])
    ensures client.Some? && |s.hops| > 0 ==> PlaceOf(t.hops[0]) == ClientPlace(client.value)
    ensures client.None? ==> t == s
  {
    if client.Some? && |s.hops| > 0
    then s.(hops := [WithPlace(s.hops[0], ClientPlace(client.value))] + s.hops[1..])
    else s
  }

  /** Records with the same addresses, index by index, count the same. */
  lemma SameAddressesSameCount(a: seq<EnrichedHop>, b: seq<EnrichedHop>)
    requires |a| == |b| && forall i :: 0 <= i < |a| ==> a[i].ip == b[i].ip
    ensures CountRecordsWithIp(a) == CountRecordsWithIp(b)
  {
    var f := (_: nat, r: EnrichedHop) => SourceHop(r);
    SameIpsSameCount(MapIndexed(f, a), MapIndexed(f, b));
  }

  /** Putting the caller's location on the first record keeps `successful_hops`
      equal to the number of records with an address. */
  lemma {:induction false} OverrideKeepsCounts(s: TraceSummary, client: Option<ClientInfo>)
    requires s.successfulHops == CountRecordsWithIp(s.hops)
    ensures WithClientOnFirst(s, client).successfulHops == CountRecordsWithIp(WithClientOnFirst(s, client).hops)
  {
    var t := WithClientOnFirst(s, client);
    SameAddressesSameCount(t.hops, s.hops);
  }

  /** What the batch endpoints answer: a failure (an unresolvable target or an
      unsupported platform) becomes the 500 response's detail; otherwise the
      processor's summary with the caller's location on the first record. */
  function BatchOutcome(target: string, maxHops: Option<int>, includeReputation: bool, client: Option<ClientInfo>,
                        resolved: Option<string>, testMode: bool, os: string, lines: seq<string>,
                        env: Environment, answers: nat -> Lookups): (r: Result<TraceSummary>)
    ensures resolved.None? ==> r == Err("Could not resolve hostname: " + target)
    ensures resolved.Some? ==> (r.Err? <==> BuildCommand(os, target, maxHops, 1.0, 3).Err?)
    ensures r.Ok? ==> r.value.target == target
    ensures r.Ok? ==> var hops := CollectedHops(testMode, target, maxHops, 1.0, 3, os, lines).value;
      && r.value.totalHops == |hops| == |r.value.hops|
      && r.value.successfulHops == CountWithIp(hops)
  {
    if resolved.None? then Err("Could not resolve hostname: " + target)
    else match CollectedHops(testMode, target, maxHops, 1.0, 3, os, lines)
      case Err(message) => Err(message)
      case Ok(hops) =>
        Ok(WithClientOnFirst(TraceSummary(target, EnrichAll(hops, includeReputation, env, testMode, answers),
                                          |hops|, CountWithIp(hops)), client))
  }

  /** A batch answer holds the enrichment of each collected hop, in order,
      except that a caller location replaces the first record's place. */
  lemma BatchRecords(target: string, maxHops: Option<int>, includeReputation: bool, client: Option<ClientInfo>,
                     resolved: Option<string>, testMode: bool, os: string, lines: seq<string>,
                     env: Environment, answers: nat -> Lookups)
    requires BatchOutcome(target, maxHops, includeReputation, client, resolved, testMode, os, lines, env, answers).Ok?
    ensures var records := BatchOutcome(target, maxHops, includeReputation, client, resolved, testMode, os, lines, env, answers).value.hops;
      var hops := CollectedHops(testMode, target, maxHops, 1.0, 3, os, lines).value;
      && |records| == |hops|
      && (forall i :: 0 <= i < |hops| ==>
            SameExceptPlace(records[i], Enriched(hops[i], includeReputation, None, env, testMode, answers(i))))
      && (forall i :: 0 < i < |hops| ==> records[i] == Enriched(hops[i], includeReputation, None, env, testMode, answers(i)))
      && (client.Some? && |hops| > 0 ==> PlaceOf(records[0]) == ClientPlace(client.value))
      && (client.None? ==> records == EnrichAll(hops, includeReputation, env, testMode, answers))
  {
    var hops := CollectedHops(testMode, target, maxHops, 1.0, 3, os, lines).value;
    var s := TraceSummary(target, EnrichAll(hops, includeReputation, env, testMode, answers), |hops|, CountWithIp(hops));
    assert BatchOutcome(target, maxHops, includeReputation, client, resolved, testMode, os, lines, env, answers)
        == Ok(WithClientOnFirst(s, client));
  }

  /** A batch answer counts its hops and its hops with an address correctly,
      whatever the caller's location did to the first record. */
  lemma {:induction false} BatchCountsRecords(target: string, maxHops: Option<int>, includeReputation: bool,
                                              client: Option<ClientInfo>, resolved: Option<string>, testMode: bool,
                                              os: string, lines: seq<string>, env: Environment, answers: nat -> Lookups)
    ensures var r := BatchOutcome(target, maxHops, includeReputation, client, resolved, testMode, os, lines, env, answers);
      r.Ok? ==> r.value.totalHops == |r.value.hops| && r.value.successfulHops == CountRecordsWithIp(r.value.hops)
  {
    var collected := CollectedHops(testMode, target, maxHops, 1.0, 3, os, lines);
    if resolved.Some? && collected.Ok? {
      var hops := collected.value;
      var records := EnrichAll(hops, includeReputation, env, testMode, answers);
      SummaryCountsRecords(hops, records);
      OverrideKeepsCounts(TraceSummary(target, records, |hops|, CountWithIp(hops)), client);
    }
  }

  /** The `async for` loop of `traceroute_generator`: one frame per record,
      counting the hops as they go. */
  method YieldHopFrames(records: seq<EnrichedHop>, client: Option<ClientInfo>) returns (frames: seq<Frame>, hopCount: nat)
    ensures frames == HopFrames(records, client) && hopCount == |records|
  {
    frames := [];
    hopCount := 0;
    while hopCount < |records|
      invariant hopCount <= |records| && |frames| == hopCount
      invariant forall j :: 0 <= j < hopCount ==> frames[j] == HopFrameOf(records[j], client)
    {
      frames := frames + [HopFrameOf(records[hopCount], client)];
      hopCount := hopCount + 1;
    }
  }

  /** The router's module-level state: the processor, the ipinfo.io client the
      routes own, and the tracer currently running, if any. */
  class Server {
    const processor: DataProcessor
    const service: IpInfoService
    var current: Option<Tracer>

    constructor (testMode: bool)
      ensures fresh(processor) && fresh(processor.service) && fresh(service)
      ensures processor.testMode == testMode && processor.service != service
      ensures service.apiKey == None && service.session == None
      ensures current == None
    {
      processor := new DataProcessor(testMode);
      service := new IpInfoService();
      current := None;
    }

    /** The start of `traceroute_generator`: the tracer is created (which fails
        when the target does not resolve), becomes the current one, and a
        non-empty API key replaces the routes' client key. */
    method Begin(target: string, maxHops: Option<int>, apiKey: Option<string>, resolved: Option<string>)
      returns (t: Result<Tracer>)
      modifies this, service
      ensures t.Err? <==> resolved.None?
      ensures t.Err? ==> t.message == "Could not resolve hostname: " + target
      ensures t.Err? ==> current == old(current) && service.apiKey == old(service.apiKey)
      ensures t.Ok? ==> fresh(t.value) && current == Some(t.value) && t.value.process == None
      ensures t.Ok? ==> t.value.target == target && t.value.maxHops == maxHops
      ensures t.Ok? ==> t.value.timeout == 1.0 && t.value.retries == 3
      ensures t.Ok? ==> service.apiKey == if NonEmpty(apiKey) then apiKey else old(service.apiKey)
      ensures service.session == old(service.session)
    {
      t := NewTracer(target, maxHops, 1.0, 3, resolved);
      if t.Err? {
        return;
      }
      current := Some(t.value);
      if NonEmpty(apiKey) {
        service.SetApiKey(apiKey);
      }
    }

    /** The `finally` clause: the tracer is stopped, and the current reference
        is cleared only if it still designates this tracer. */
    method Finish(tracer: Tracer)
      modifies this, tracer, tracer.Running()
      ensures tracer.process == None
      ensures old(current) == Some(tracer) ==> current == None
      ensures old(current) != Some(tracer) ==> current == old(current)
    {
      tracer.Stop();
      if current == Some(tracer) {
        current := None;
      }
    }

    /** `traceroute_generator`: the frames it yields for a target whose
        resolution gave `resolved`, on platform `os`, when the process writes
        `lines` and the lookups of hop `i` answer `answers(i)`. */
    method TracerouteGenerator(target: string, maxHops: Option<int>, includeReputation: bool, apiKey: Option<string>,
                               client: Option<ClientInfo>, resolved: Option<string>, os: string, lines: seq<string>,
                               env: Environment, answers: nat -> Lookups)
      returns (frames: seq<Frame>)
      requires processor.service != service
      modifies this, service, processor.service
      ensures frames == GeneratorFrames(StreamOutcome(target, maxHops, resolved, os, lines, includeReputation, env,
                                                      processor.testMode, answers), client)
      ensures resolved.None? ==> current == old(current)
      ensures resolved.Some? ==> current == None
      ensures service.apiKey == if resolved.Some? && NonEmpty(apiKey) then apiKey else old(service.apiKey)
      ensures processor.service.apiKey == old(processor.service.apiKey)
    {
      var begun := Begin(target, maxHops, apiKey, resolved);
      if begun.Err? {
        frames := [ErrorFrame(begun.message), DoneFrame];
        return;
      }
      var tracer := begun.value;
      var body := StreamBody(tracer, includeReputation, client, os, lines, env, answers);
      Finish(tracer);
      frames := body + [DoneFrame];
    }

    /** The `try` block of `traceroute_generator` once the tracer exists: the
        hop frames and the completion frame, or the error frame. */
    method StreamBody(tracer: Tracer, includeReputation: bool, client: Option<ClientInfo>, os: string,
                      lines: seq<string>, env: Environment, answers: nat -> Lookups)
      returns (body: seq<Frame>)
      requires tracer.process == None
      modifies tracer, processor.service
      ensures body == BodyFrames(RunOutcome(tracer.target, tracer.maxHops, tracer.timeout,
        tracer.retries, os, lines, includeReputation, env, processor.testMode, answers), client)
      ensures tracer.process == None
      ensures processor.service.apiKey == old(processor.service.apiKey)
    {
      var hops := tracer.RunStream(os, lines);
      if hops.Err? {
        body := [ErrorFrame(hops.message)];
      } else {
        var records := processor.ProcessTracerouteStream(hops.value, includeReputation, env, answers);
        var hopFrames, _ := YieldHopFrames(records, client);
        body := hopFrames + [CompletedFrame];
      }
    }

    /** `start_traceroute`: the stream of a validated request. */
    method StartTraceroute(req: TracerouteRequest, apiKey: Option<string>, client: Option<ClientInfo>,
                           resolved: Option<string>, os: string, lines: seq<string>,
                           env: Environment, answers: nat -> Lookups)
      returns (frames: seq<Frame>)
      requires processor.service != service
      modifies this, service, processor.service
      ensures frames == GeneratorFrames(StreamOutcome(req.target, req.maxHops, resolved, os, lines,
                                                      Truthy(req.includeReputation), env, processor.testMode, answers),
                                        client)
      ensures resolved.None? ==> current == old(current)
      ensures resolved.Some? ==> current == None
      ensures service.apiKey == if resolved.Some? && NonEmpty(apiKey) then apiKey else old(service.apiKey)
      ensures processor.service.apiKey == old(processor.service.apiKey)
    {
      frames := TracerouteGenerator(req.target, req.maxHops, Truthy(req.includeReputation), apiKey, client,
                                    resolved, os, lines, env, answers);
    }

    /** The objects `StopTraceroute` may change: the current tracer and its process. */
    function Stoppable(): set<object>
      reads this, if current.Some? then {current.value} else {}
    {
      if current.Some? then {current.value} + current.value.Running() else {}
    }

    /** `stop_traceroute`: a current tracer is stopped and forgotten; the answer
        is "stopped" whether or not there was one. */
    method StopTraceroute() returns (status: string)
      modifies this, Stoppable()
      ensures status == "stopped" && current == None
      ensures old(current).Some? ==> old(current).value.process == None
    {
      if current.Some? {
        current.value.Stop();
        current := None;
      }
      status := "stopped";
    }

    /** `get_client_location`, which asks the routes' ipinfo.io client only when
        the query has no usable location and the client is not local. */
    method GetClientLocation(lat: Option<real>, lon: Option<real>, city: Option<string>, country: Option<string>,
                             host: Option<string>, reply: HttpReply)
      returns (r: Option<ClientInfo>)
      modifies service
      ensures r == ClientLocationFor(lat, lon, city, country, host, reply)
      ensures service.apiKey == old(service.apiKey)
    {
      if NonZero(lat) && NonZero(lon) {
        return Some(ClientInfo(lat, lon, city, country));
      }
      if host.None? || host.value in Loopback {
        return None;
      }
      var _, info := service.GetIpInfo(host.value, reply);
      if NonZero(info.latitude) && NonZero(info.longitude) {
        r := Some(ClientInfo(info.latitude, info.longitude, info.city, info.country));
      } else {
        r := None;
      }
    }

    /** `run_traceroute`: the batch trace of a validated request; the tracer is
        stopped whatever happens. */
    method RunTraceroute(req: TracerouteRequest, apiKey: Option<string>, client: Option<ClientInfo>,
                         resolved: Option<string>, os: string, lines: seq<string>,
                         env: Environment, answers: nat -> Lookups)
      returns (r: Result<TraceSummary>)
      requires processor.service != service
      modifies service, processor.service
      ensures r == BatchOutcome(req.target, req.maxHops, Truthy(req.includeReputation), client, resolved,
                                processor.testMode, os, lines, env, answers)
      ensures service.apiKey == if resolved.Some? && NonEmpty(apiKey) then apiKey else old(service.apiKey)
      ensures processor.service.apiKey == old(processor.service.apiKey)
    {
      var t := NewTracer(req.target, req.maxHops, 1.0, 3, resolved);
      if t.Err? {
        return Err(t.message);
      }
      var tracer := t.value;
      if NonEmpty(apiKey) {
        service.SetApiKey(apiKey);
      }
      var result := processor.ProcessTracerouteOf(tracer, os, lines, Truthy(req.includeReputation), env, answers);
      if result.Err? {
        r := Err(result.message);
      } else {
        r := Ok(WithClientOnFirst(result.value, client));
      }
      tracer.Stop();
    }

    /** `traceroute_summary`: the same batch trace for a target given in the path. */
    method TracerouteSummary(target: string, maxHops: int, includeReputation: bool, apiKey: Option<string>,
                             client: Option<ClientInfo>, resolved: Option<string>, os: string, lines: seq<string>,
                             env: Environment, answers: nat -> Lookups)
      returns (r: Result<TraceSummary>)
      requires processor.service != service
      modifies service, processor.service
      ensures r == BatchOutcome(target, Some(maxHops), includeReputation, client, resolved,
                                processor.testMode, os, lines, env, answers)
      ensures service.apiKey == if resolved.Some? && NonEmpty(apiKey) then apiKey else old(service.apiKey)
      ensures processor.service.apiKey == old(processor.service.apiKey)
    {
      var t := NewTracer(target, Some(maxHops), 1.0, 3, resolved);
      if t.Err? {
        return Err(t.message);
      }
      if NonEmpty(apiKey) {
        service.SetApiKey(apiKey);
      }
      var result := processor.ProcessTracerouteOf(t.value, os, lines, includeReputation, env, answers);
      if result.Err? {
        return Err(result.message);
      }
      r := Ok(WithClientOnFirst(result.value, client));
    }
  }
}
