/** The request and response schemas of the HTTP API
    (geotraceroute/api/models.py), as validators: each takes the members of
    the JSON object as the validator sees them and either builds the model
    or lists the members it rejects, in declaration order. */
module ApiModels {
  import opened Common
  import opened Traceroute
  import opened Enrichment

  datatype ErrorKind = MissingField | NotNullable | TooShort | TooSmall | TooLarge

  /** One validation error: where it is (the member's path) and what is wrong. */
  datatype FieldError = FieldError(loc: seq<string>, kind: ErrorKind)

  datatype Validated<T> = Valid(value: T) | Invalid(errors: seq<FieldError>)

  /** A required member with no further constraint. */
  function Required<T>(name: string, raw: Raw<T>): (e: seq<FieldError>)
    ensures e == [] <==> raw.Given?
    ensures |e| <= 1 && forall x :: x in e ==> x.loc == [name]
    ensures raw.Missing? ==> e == [FieldError([name], MissingField)]
  {
    match raw
    case Missing => [FieldError([name], MissingField)]
    case Null => [FieldError([name], NotNullable)]
    case Given(_) => []
  }

  /** An `Optional[...]` member: `null` is kept as None, absence takes the default. */
  function WithDefault<T>(raw: Raw<T>, default: Option<T>): (r: Option<T>)
    ensures raw.Missing? ==> r == default
    ensures raw.Null? ==> r == None
    ensures raw.Given? ==> r == Some(raw.value)
  {
    match raw
    case Missing => default
    case Null => None
    case Given(v) => Some(v)
  }

  // ---------------------------------------------------------------------
  // TracerouteRequest
  // ---------------------------------------------------------------------

  datatype TracerouteRequest = TracerouteRequest(target: string, maxHops: Option<int>, includeReputation: Option<bool>)

  /** `target: str = Field(..., min_length=1)`. */
  function TargetErrors(target: Raw<string>): (e: seq<FieldError>)
    ensures e == [] <==> target.Given? && |target.value| >= 1
    ensures |e| <= 1 && forall x :: x in e ==> x.loc == ["target"]
    ensures target.Given? && target.value == "" ==> e == [FieldError(["target"], TooShort)]
  {
    if target.Given? && |target.value| < 1 then [FieldError(["target"], TooShort)]
    else Required("target", target)
  }

  /** `max_hops: Optional[int] = Field(default=30, ge=1, le=64)`: the bounds
      apply to a given number only. */
  function MaxHopsErrors(maxHops: Raw<int>): (e: seq<FieldError>)
    ensures e == [] <==> !maxHops.Given? || 1 <= maxHops.value <= 64
    ensures |e| <= 1 && forall x :: x in e ==> x.loc == ["max_hops"]
    ensures maxHops.Given? && maxHops.value < 1 ==> e == [FieldError(["max_hops"], TooSmall)]
    ensures maxHops.Given? && maxHops.value > 64 ==> e == [FieldError(["max_hops"], TooLarge)]
  {
    match maxHops
    case Given(n) =>
      if n < 1 then [FieldError(["max_hops"], TooSmall)]
      else if n > 64 then [FieldError(["max_hops"], TooLarge)]
      else []
    case _ => []
  }

  /** Validation of a `TracerouteRequest` body. */
  function ValidateTracerouteRequest(target: Raw<string>, maxHops: Raw<int>, includeReputation: Raw<bool>)
    : (r: Validated<TracerouteRequest>)
    ensures r.Valid? <==> target.Given? && |target.value| >= 1 && (maxHops.Given? ==> 1 <= maxHops.value <= 64)
    ensures r.Valid? ==> r.value.target == target.value
    ensures r.Valid? && r.value.maxHops.Some? ==> 1 <= r.value.maxHops.value <= 64
    ensures r.Valid? && maxHops.Missing? ==> r.value.maxHops == Some(30)
    ensures r.Valid? && maxHops.Null? ==> r.value.maxHops == None
    ensures r.Valid? && maxHops.Given? ==> r.value.maxHops == Some(maxHops.value)
    ensures r.Valid? && includeReputation.Missing? ==> r.value.includeReputation == Some(false)
    ensures r.Valid? && includeReputation.Null? ==> r.value.includeReputation == None
    ensures r.Valid? && includeReputation.Given? ==> r.value.includeReputation == Some(includeReputation.value)
    ensures r.Invalid? ==> 1 <= |r.errors| <= 2
    ensures r.Invalid? ==> forall x :: x in r.errors ==> x.loc == ["target"] || x.loc == ["max_hops"]
  {
    var errors := TargetErrors(target) + MaxHopsErrors(maxHops);
    if errors != [] then Invalid(errors)
    else Valid(TracerouteRequest(target.value, WithDefault(maxHops, Some(30)), WithDefault(includeReputation, Some(false))))
  }

  /** An empty target, and a hop limit of -1, are both refused, each with an
      error on its own member. */
  lemma {:induction false} RejectedRequests()
    ensures ValidateTracerouteRequest(Given(""), Missing, Missing) == Invalid([FieldError(["target"], TooShort)])
    ensures ValidateTracerouteRequest(Missing, Missing, Missing) == Invalid([FieldError(["target"], MissingField)])
    ensures ValidateTracerouteRequest(Given("8.8.8.8"), Given(-1), Missing) == Invalid([FieldError(["max_hops"], TooSmall)])
  {
    assert TargetErrors(Given("8.8.8.8")) == [];
  }

  // ---------------------------------------------------------------------
  // ClientLocation
  // ---------------------------------------------------------------------

  datatype ClientLocation = ClientLocation(latitude: real, longitude: real, city: Option<string>, country: Option<string>)

  /** Validation of a `ClientLocation`: both coordinates are required, city and country default to None. */
  function ValidateClientLocation(latitude: Raw<real>, longitude: Raw<real>, city: Raw<string>, country: Raw<string>)
    : (r: Validated<ClientLocation>)
    ensures r.Valid? <==> latitude.Given? && longitude.Given?
    ensures r.Valid? ==> r.value.latitude == latitude.value && r.value.longitude == longitude.value
    ensures r.Valid? ==> (r.value.city.Some? <==> city.Given?) && (r.value.country.Some? <==> country.Given?)
    ensures r.Valid? && city.Given? ==> r.value.city.value == city.value
    ensures r.Valid? && country.Given? ==> r.value.country.value == country.value
    ensures r.Invalid? ==> forall x :: x in r.errors ==> x.loc == ["latitude"] || x.loc == ["longitude"]
  {
    var errors := Required("latitude", latitude) + Required("longitude", longitude);
    if errors != [] then Invalid(errors)
    else Valid(ClientLocation(latitude.value, longitude.value, WithDefault(city, None), WithDefault(country, None)))
  }

  // ---------------------------------------------------------------------
  // HopInfo and TracerouteResponse
  // ---------------------------------------------------------------------

  datatype HopInfo = HopInfo(
    hopNumber: int,
    ip: Option<string>,
    hostname: Option<string>,
    rttMs: seq<real>,
    country: Option<string>,
    city: Option<string>,
    latitude: Option<real>,
    longitude: Option<real>,
    organization: Option<string>,
    asn: Option<int>,
    reputationScore: Option<real>)

  datatype TracerouteResponse = TracerouteResponse(target: string, hops: seq<HopInfo>, totalHops: int, successfulHops: int)

  /** A processed hop read as a `HopInfo`: every member is present in the
      record, and only `rtt_ms` refuses None, the list being required. */
  function HopInfoOf(r: EnrichedHop, loc: seq<string>): (v: Validated<HopInfo>)
    ensures v.Valid? <==> r.rttMs.Some?
    ensures v.Valid? ==> v.value.rttMs == r.rttMs.value && v.value.hopNumber == r.hopNumber
    ensures v.Valid? ==> v.value.ip == r.ip && v.value.hostname == r.hostname
    ensures v.Valid? ==> v.value.country == r.country && v.value.city == r.city
    ensures v.Valid? ==> v.value.latitude == r.latitude && v.value.longitude == r.longitude
    ensures v.Valid? ==> v.value.organization == r.organization && v.value.reputationScore == r.reputationScore
    ensures v.Valid? ==> (v.value.asn.Some? <==> r.asn.Some?) && (r.asn.Some? ==> v.value.asn.value == r.asn.value)
    ensures v.Invalid? ==> v.errors == [FieldError(loc + ["rtt_ms"], NotNullable)]
  {
    match r.rttMs
    case None => Invalid([FieldError(loc + ["rtt_ms"], NotNullable)])
    case Some(rtts) =>
      Valid(HopInfo(r.hopNumber, r.ip, r.hostname, rtts, r.country, r.city, r.latitude, r.longitude,
                    r.organization, if r.asn.Some? then Some(r.asn.value as int) else None, r.reputationScore))
  }

  /** The `hops` member of a response: valid when every record validates, and
      otherwise refused with the errors of the records that do not. */
  function HopsOf(records: seq<EnrichedHop>): (v: Validated<seq<HopInfo>>)
    ensures v.Valid? <==> forall i :: 0 <= i < |records| ==> records[i].rttMs.Some?
    ensures v.Valid? ==> |v.value| == |records|
    ensures v.Valid? ==> forall i :: 0 <= i < |records| ==> v.value[i] == HopInfoOf(records[i], HopLoc(i)).value
    ensures v.Valid? ==> forall i :: 0 <= i < |records| ==> v.value[i].rttMs == records[i].rttMs.value
    ensures v.Invalid? ==> v.errors != [] && v.errors == HopErrors(records)
  {
    if forall i :: 0 <= i < |records| ==> records[i].rttMs.Some? then
      Valid(seq(|records|, i requires 0 <= i < |records| => HopInfoOf(records[i], HopLoc(i)).value))
    else Invalid(HopErrors(records))
  }

  /** The path of hop `i` in a response. */
  function HopLoc(i: nat): seq<string> {
    ["hops", NatToString(i)]
  }

  /** The errors of the records without an RTT list, each at its own index. */
  function HopErrors(records: seq<EnrichedHop>): (e: seq<FieldError>)
    ensures e == [] <==> forall i :: 0 <= i < |records| ==> records[i].rttMs.Some?
  {
    if records == [] then []
    else
      var n := |records| - 1;
      HopErrors(records[..n])
        + (if records[n].rttMs.None? then [RttError(n)] else [])
  }

  /** The error of hop `i` without an RTT list. */
  function RttError(i: nat): FieldError {
    FieldError(HopLoc(i) + ["rtt_ms"], NotNullable)
  }

  /** The errors sit exactly at the records without an RTT list: each error
      belongs to one of them, and each of them has its error. */
  lemma {:induction false} HopErrorsLocated(records: seq<EnrichedHop>)
    ensures forall x :: x in HopErrors(records) ==> exists i :: 0 <= i < |records| && records[i].rttMs.None? && x == RttError(i)
    ensures forall i :: 0 <= i < |records| && records[i].rttMs.None? ==> RttError(i) in HopErrors(records)
  {
    if records != [] {
      var n := |records| - 1;
      var prefix := records[..n];
      HopErrorsLocated(prefix);
      var e := HopErrors(records);
      assert e == HopErrors(prefix) + (if records[n].rttMs.None? then [RttError(n)] else []);
      forall x | x in e
        ensures exists i :: 0 <= i < |records| && records[i].rttMs.None? && x == RttError(i)
      {
        if x in HopErrors(prefix) {
          var i :| 0 <= i < |prefix| && prefix[i].rttMs.None? && x == RttError(i);
          assert records[i] == prefix[i];
        } else {
          assert records[n].rttMs.None? && x == RttError(n);
        }
      }
      forall i | 0 <= i < |records| && records[i].rttMs.None?
        ensures RttError(i) in e
      {
        if i < n {
          assert prefix[i] == records[i];
        }
      }
    }
  }

  /** A `process_traceroute` summary read as a `TracerouteResponse`. */
  function ResponseOf(s: TraceSummary): (v: Validated<TracerouteResponse>)
    ensures v.Valid? <==> forall i :: 0 <= i < |s.hops| ==> s.hops[i].rttMs.Some?
    ensures v.Valid? ==> v.value.target == s.target && v.value.hops == HopsOf(s.hops).value
    ensures v.Invalid? ==> v.errors == HopErrors(s.hops)
    ensures v.Valid? ==> v.value.totalHops == s.totalHops && v.value.successfulHops == s.successfulHops
  {
    match HopsOf(s.hops)
    case Invalid(e) => Invalid(e)
    case Valid(hs) => Valid(TracerouteResponse(s.target, hs, s.totalHops, s.successfulHops))
  }

  /** Every summary built from parsed traceroute output fits the response
      schema: the parser always produces an RTT list (empty for a timeout),
      and enrichment never touches it. */
  lemma {:induction false} ParsedSummaryFitsResponse(target: string, lines: seq<string>, includeReputation: bool,
                                                    env: Environment, testMode: bool, answers: nat -> Lookups)
    ensures var hops := ParsedHops(lines);
      ResponseOf(TraceSummary(target, EnrichAll(hops, includeReputation, env, testMode, answers),
                              |hops|, CountWithIp(hops))).Valid?
  {
    var hops := ParsedHops(lines);
    var records := EnrichAll(hops, includeReputation, env, testMode, answers);
    forall i | 0 <= i < |records|
      ensures records[i].rttMs.Some?
    {
      assert hops[i] in hops;
      ParsedHopsMembers(lines, hops[i]);
      var k :| 0 <= k < |lines| && ParseHop(lines[k]) == Some(hops[i]);
      assert WellShaped(hops[i]);
      assert KeepsHop(records[i], hops[i]);
    }
  }
}
