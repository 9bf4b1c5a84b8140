/** Hop enrichment (geotraceroute/core/data_processor.py): the fallback
    chain that attaches a place, an owner and a reputation to each hop, the
    batch and streaming drivers around it, and the simpler ipinfo-only
    policy. The GeoIP databases, the environment and the remote service are
    oracles: `Lookups` holds what each of them answered for one hop. */
module Enrichment {
  import opened Common
  import opened Traceroute
  import opened IpInfo

  /** The dictionary `_enrich_hop_data` returns. */
  datatype EnrichedHop = EnrichedHop(
    hopNumber: nat,
    ip: Option<string>,
    hostname: Option<string>,
    rttMs: Option<seq<real>>,
    city: Option<string>,
    country: Option<string>,
    latitude: Option<real>,
    longitude: Option<real>,
    organization: Option<string>,
    asn: Option<nat>,
    reputationScore: Option<real>)

  /** The location a caller may pass for the first hop (`client_info`). */
  datatype ClientInfo = ClientInfo(latitude: Option<real>, longitude: Option<real>, city: Option<string>, country: Option<string>)

  /** `DEFAULT_LATITUDE`, `DEFAULT_LONGITUDE`, `DEFAULT_CITY`, `DEFAULT_COUNTRY` (None when unset). */
  datatype Environment = Environment(
    defaultLatitude: Option<string>, defaultLongitude: Option<string>,
    defaultCity: Option<string>, defaultCountry: Option<string>)

  /** The city database's answer: an exception, or a record whose fields may be None. */
  datatype CityAnswer =
    | CityLookupFailed
    | CityRecord(cityName: Option<string>, countryName: Option<string>, latitude: Option<real>, longitude: Option<real>)

  /** The ASN database's answer. */
  datatype AsnAnswer = AsnLookupFailed | AsnRecord(organization: Option<string>, number: Option<nat>)

  /** What the outside world answered while one hop was enriched: both
      databases, and the two ipinfo.io requests (location, then reputation). */
  datatype Lookups = Lookups(city: CityAnswer, asn: AsnAnswer, locate: HttpReply, reputation: HttpReply)

  /** City, country, latitude and longitude, set together. */
  datatype Place = Place(city: Option<string>, country: Option<string>, latitude: Option<real>, longitude: Option<real>)

  /** A place is complete when it has both coordinates. */
  predicate Located(p: Place) {
    p.latitude.Some? && p.longitude.Some?
  }

  /** The dictionary before any lookup: the hop's own fields, everything else None. */
  function Bare(hop: Hop): EnrichedHop {
    EnrichedHop(hop.hopNumber, hop.ip, hop.hostname, hop.rttMs, None, None, None, None, None, None, None)
  }

  function PlaceOf(r: EnrichedHop): Place {
    Place(r.city, r.country, r.latitude, r.longitude)
  }

  function WithPlace(r: EnrichedHop, p: Place): (s: EnrichedHop)
    ensures PlaceOf(s) == p
  {
    r.(city := p.city, country := p.country, latitude := p.latitude, longitude := p.longitude)
  }

  /** The hop's fields are never touched by enrichment. */
  predicate KeepsHop(r: EnrichedHop, hop: Hop) {
    r.hopNumber == hop.hopNumber && r.ip == hop.ip && r.hostname == hop.hostname && r.rttMs == hop.rttMs
  }

  /** Every enriched record has both coordinates or neither. */
  predicate CoordinatesPaired(r: EnrichedHop) {
    r.latitude.Some? <==> r.longitude.Some?
  }

  // ---------------------------------------------------------------------
  // The decision procedure
  // ---------------------------------------------------------------------

  /** The hop's address is looked up at all: present, not a '*' marker, and an IP literal. */
  predicate Enrichable(hop: Hop) {
    NonEmpty(hop.ip) && !StartsWith(hop.ip.value, "*") && IsIpLiteral(hop.ip.value)
  }

  /** The hop is treated as part of the local network. */
  predicate IsLocalHop(hop: Hop)
    requires Enrichable(hop)
  {
    IsPrivateAddress(hop.ip.value) || hop.hopNumber == 1
  }

  /** The checks before the literal test are implied by it: a hop is looked up
      exactly when its address is an IP literal. */
  lemma EnrichableIsLiteral(hop: Hop)
    ensures Enrichable(hop) <==> hop.ip.Some? && IsIpLiteral(hop.ip.value)
  {
    if hop.ip.Some? && IsIpLiteral(hop.ip.value) {
      IpLiteralStartsWithDigit(hop.ip.value);
      StartsWithMeans(hop.ip.value, "*");
    }
  }

  /** The first hop is local whatever its address; any other hop is local
      exactly when its address is private. */
  lemma LocalHopExamples(rtts: Option<seq<real>>)
    ensures var h := Hop(1, Some("8.8.8.8"), None, rtts); Enrichable(h) && IsLocalHop(h)
    ensures var h := Hop(3, Some("192.168.1.1"), None, rtts); Enrichable(h) && IsLocalHop(h)
    ensures var h := Hop(3, Some("10.0.0.1"), None, rtts); Enrichable(h) && IsLocalHop(h)
    ensures var h := Hop(3, Some("8.8.8.8"), None, rtts); Enrichable(h) && !IsLocalHop(h)
  {
    PrivateAddressExamples();
    LocalAddressesParse();
    IpLiteralExamples();
    EnrichableIsLiteral(Hop(1, Some("8.8.8.8"), None, rtts));
    EnrichableIsLiteral(Hop(3, Some("8.8.8.8"), None, rtts));
    EnrichableIsLiteral(Hop(3, Some("192.168.1.1"), None, rtts));
    EnrichableIsLiteral(Hop(3, Some("10.0.0.1"), None, rtts));
  }

  const GenericPlace := Place(Some("Unknown"), Some("Local Area"), Some(0.0), Some(0.0))

  /** The placement of a local hop: the caller's location when both of its
      coordinates are truthy; else the configured default when both default
      coordinates are set and convert (city and country defaulting to
      "Unknown"); else the generic local placeholder. */
  function LocalPlace(client: Option<ClientInfo>, env: Environment): (p: Place)
    ensures Located(p)
    ensures client.Some? && NonZero(client.value.latitude) && NonZero(client.value.longitude) ==>
      p == Place(client.value.city, client.value.country, client.value.latitude, client.value.longitude)
    ensures !(client.Some? && NonZero(client.value.latitude) && NonZero(client.value.longitude)) ==>
      p == (if ConfiguredDefault(env).Some? then ConfiguredDefault(env).value else GenericPlace)
  {
    if client.Some? && NonZero(client.value.latitude) && NonZero(client.value.longitude) then
      Place(client.value.city, client.value.country, client.value.latitude, client.value.longitude)
    else match ConfiguredDefault(env)
      case Some(p) => p
      case None => GenericPlace
  }

  /** The configured default place, when both coordinates are set, non-empty and numeric. */
  function ConfiguredDefault(env: Environment): (r: Option<Place>)
    ensures r.Some? <==> NonEmpty(env.defaultLatitude) && NonEmpty(env.defaultLongitude)
                         && ParseFloat(env.defaultLatitude.value).Some? && ParseFloat(env.defaultLongitude.value).Some?
    ensures r.Some? ==> (Located(r.value)
      && r.value.latitude == ParseFloat(env.defaultLatitude.value)
      && r.value.longitude == ParseFloat(env.defaultLongitude.value)
      && r.value.city == Some(if env.defaultCity.Some? then env.defaultCity.value else "Unknown")
      && r.value.country == Some(if env.defaultCountry.Some? then env.defaultCountry.value else "Unknown"))
  {
    if NonEmpty(env.defaultLatitude) && NonEmpty(env.defaultLongitude) then
      var lat :- ParseFloat(env.defaultLatitude.value);
      var lon :- ParseFloat(env.defaultLongitude.value);
      Some(Place(Some(if env.defaultCity.Some? then env.defaultCity.value else "Unknown"),
                 Some(if env.defaultCountry.Some? then env.defaultCountry.value else "Unknown"),
                 Some(lat), Some(lon)))
    else None
  }

  /** A local hop: its placement, the "Local Network" owner, no ASN, and a
      zero reputation when one is asked for. */
  function LocalEnriched(hop: Hop, includeReputation: bool, client: Option<ClientInfo>, env: Environment): (r: EnrichedHop)
    ensures KeepsHop(r, hop) && CoordinatesPaired(r)
    ensures PlaceOf(r) == LocalPlace(client, env)
    ensures r.organization == Some("Local Network") && r.asn == None
    ensures r.reputationScore == (if includeReputation then Some(0.0) else None)
  {
    var r := WithPlace(Bare(hop), LocalPlace(client, env)).(organization := Some("Local Network"), asn := None);
    if includeReputation then r.(reputationScore := Some(0.0)) else r
  }

  /** The fixed record every public hop gets in test mode. */
  function MockEnriched(hop: Hop, includeReputation: bool): (r: EnrichedHop)
    ensures KeepsHop(r, hop) && CoordinatesPaired(r)
    ensures PlaceOf(r) == Place(Some("Mountain View"), Some("United States"), Some(37.4056), Some(-122.0775))
    ensures r.organization == Some("Google LLC") && r.asn == Some(15169)
    ensures r.reputationScore == (if includeReputation then Some(0.8) else None)
  {
    var r := WithPlace(Bare(hop), Place(Some("Mountain View"), Some("United States"), Some(37.4056), Some(-122.0775)))
      .(organization := Some("Google LLC"), asn := Some(15169));
    if includeReputation then r.(reputationScore := Some(0.8)) else r
  }

  const DublinPlace := Place(Some("Dublin"), Some("Ireland"), Some(53.3498), Some(-6.2603))

  /** Step 1 of a public hop: the city database, then (in the same `try`) the
      ASN database. The flag says whether a location was found. */
  function AfterDatabases(base: EnrichedHop, look: Lookups): (r: (EnrichedHop, bool))
    ensures r.1 <==> look.city.CityRecord? && NonZero(look.city.latitude) && NonZero(look.city.longitude)
    ensures PlaceOf(r.0) == (if r.1 then Place(look.city.cityName, look.city.countryName, look.city.latitude, look.city.longitude)
                             else PlaceOf(base))
    ensures r.0.asn == (if look.city.CityRecord? && look.asn.AsnRecord? then look.asn.number else base.asn)
    ensures r.0.organization == (if look.city.CityRecord? && look.asn.AsnRecord? then look.asn.organization else base.organization)
    ensures r.0.(city := base.city, country := base.country, latitude := base.latitude, longitude := base.longitude,
                 organization := base.organization, asn := base.asn) == base
  {
    match look.city
    case CityLookupFailed => (base, false)
    case CityRecord(name, country, lat, lon) =>
      var found := NonZero(lat) && NonZero(lon);
      var r := if found then WithPlace(base, Place(name, country, lat, lon)) else base;
      match look.asn
      case AsnLookupFailed => (r, found)
      case AsnRecord(org, number) => (r.(organization := org, asn := number), found)
  }

  /** Step 2: the remote service, asked only when no location was found yet;
      a reply with two truthy coordinates replaces the place and the owner. */
  function AfterRemote(ip: string, r: EnrichedHop, found: bool, reply: HttpReply): (s: (EnrichedHop, bool))
    ensures found ==> s == (r, true)
    ensures s.0.asn == r.asn && s.0.reputationScore == r.reputationScore
    ensures !found ==> var info := LookupResult(ip, reply);
      if NonZero(info.latitude) && NonZero(info.longitude) then
        && s.1
        && PlaceOf(s.0) == Place(info.city, info.country, info.latitude, info.longitude)
        && s.0.organization == info.org
        && s.0.(city := r.city, country := r.country, latitude := r.latitude, longitude := r.longitude,
                organization := r.organization) == r
      else s == (r, false)
  {
    if found then (r, true)
    else
      var info := LookupResult(ip, reply);
      if NonZero(info.latitude) && NonZero(info.longitude) then
        (WithPlace(r, Place(info.city, info.country, info.latitude, info.longitude)).(organization := info.org), true)
      else (r, false)
  }

  /** A public hop outside test mode: databases, remote service, the static
      table for 84.116.x.x, then the reputation from a second remote request. */
  function PublicEnriched(hop: Hop, includeReputation: bool, look: Lookups): (r: EnrichedHop)
    requires Enrichable(hop)
    ensures KeepsHop(r, hop)
    ensures r.asn == (if look.city.CityRecord? && look.asn.AsnRecord? then look.asn.number else None)
    ensures r.reputationScore == (if includeReputation then LookupResult(hop.ip.value, look.reputation).reputationScore else None)
  {
    var ip := hop.ip.value;
    var (r1, found1) := AfterDatabases(Bare(hop), look);
    var (r2, found2) := AfterRemote(ip, r1, found1, look.locate);
    var r3 := if !found2 && StartsWith(ip, "84.116.") then WithPlace(r2, DublinPlace).(organization := Some("Aorta Network")) else r2;
    if includeReputation then r3.(reputationScore := LookupResult(ip, look.reputation).reputationScore) else r3
  }

  /** `_enrich_hop_data`. */
  function Enriched(hop: Hop, includeReputation: bool, client: Option<ClientInfo>, env: Environment,
                    testMode: bool, look: Lookups): (r: EnrichedHop)
    ensures KeepsHop(r, hop)
    ensures !Enrichable(hop) ==> r == Bare(hop)
    ensures !includeReputation ==> r.reputationScore == None
  {
    if !Enrichable(hop) then Bare(hop)
    else if IsLocalHop(hop) then LocalEnriched(hop, includeReputation, client, env)
    else if testMode then MockEnriched(hop, includeReputation)
    else PublicEnriched(hop, includeReputation, look)
  }

  // ---------------------------------------------------------------------
  // What the policy promises
  // ---------------------------------------------------------------------

  /** No record ever has one coordinate without the other. */
  lemma EnrichedCoordinatesPaired(hop: Hop, includeReputation: bool, client: Option<ClientInfo>, env: Environment,
                                  testMode: bool, look: Lookups)
    ensures CoordinatesPaired(Enriched(hop, includeReputation, client, env, testMode, look))
  {
    if Enrichable(hop) && !IsLocalHop(hop) && !testMode {
      var ip := hop.ip.value;
      var (r1, found1) := AfterDatabases(Bare(hop), look);
      assert CoordinatesPaired(r1);
      var (r2, found2) := AfterRemote(ip, r1, found1, look.locate);
      assert CoordinatesPaired(r2);
    }
  }

  /** A reputation score is only ever 0.0 (local), 0.8 (test mode) or a remote score. */
  lemma EnrichedScoreRange(hop: Hop, includeReputation: bool, client: Option<ClientInfo>, env: Environment,
                           testMode: bool, look: Lookups)
    ensures var r := Enriched(hop, includeReputation, client, env, testMode, look);
      r.reputationScore.Some? ==> r.reputationScore.value in {0.0, 0.5, 0.7, 0.8}
  {
    if Enrichable(hop) && !IsLocalHop(hop) && !testMode && includeReputation {
      LookupIsMinimalOrScored(hop.ip.value, look.reputation);
    }
  }

  /** The remote service never supplies an ASN, and a failed city lookup skips the
      ASN database: a public hop has an ASN only from a successful pair of lookups. */
  lemma CityFailureSkipsAsn(hop: Hop, includeReputation: bool, look: Lookups)
    requires Enrichable(hop) && look.city.CityLookupFailed?
    ensures PublicEnriched(hop, includeReputation, look).asn == None
    ensures PublicEnriched(hop, includeReputation, look).organization ==
      (var info := LookupResult(hop.ip.value, look.locate);
       if NonZero(info.latitude) && NonZero(info.longitude) then info.org
       else if StartsWith(hop.ip.value, "84.116.") then Some("Aorta Network") else None)
  {
  }

  /** A city-database hit with two truthy coordinates decides the place: the
      remote service and the static table are not consulted for it. */
  lemma DatabaseLocationWins(hop: Hop, includeReputation: bool, look: Lookups)
    requires Enrichable(hop)
    requires look.city.CityRecord? && NonZero(look.city.latitude) && NonZero(look.city.longitude)
    ensures PlaceOf(PublicEnriched(hop, includeReputation, look)) ==
      Place(look.city.cityName, look.city.countryName, look.city.latitude, look.city.longitude)
    ensures PublicEnriched(hop, includeReputation, look).organization ==
      (if look.asn.AsnRecord? then look.asn.organization else None)
  {
  }

  /** When the databases did not locate the hop and the remote service did, the
      place and the owner are the remote reply's; the ASN is still the database's. */
  lemma RemoteLocationUsed(hop: Hop, includeReputation: bool, look: Lookups)
    requires Enrichable(hop)
    requires !(look.city.CityRecord? && NonZero(look.city.latitude) && NonZero(look.city.longitude))
    requires var info := LookupResult(hop.ip.value, look.locate); NonZero(info.latitude) && NonZero(info.longitude)
    ensures var info := LookupResult(hop.ip.value, look.locate);
      && PlaceOf(PublicEnriched(hop, includeReputation, look)) == Place(info.city, info.country, info.latitude, info.longitude)
      && PublicEnriched(hop, includeReputation, look).organization == info.org
  {
    var ip := hop.ip.value;
    var (r1, found1) := AfterDatabases(Bare(hop), look);
    assert !found1;
    var (r2, found2) := AfterRemote(ip, r1, found1, look.locate);
    assert found2;
  }

  /** When nobody locates a hop outside 84.116.x.x, it stays unplaced and keeps
      the owner the ASN database gave, if it was consulted. */
  lemma NoLocationFound(hop: Hop, includeReputation: bool, look: Lookups)
    requires Enrichable(hop) && !StartsWith(hop.ip.value, "84.116.")
    requires !(look.city.CityRecord? && NonZero(look.city.latitude) && NonZero(look.city.longitude))
    requires var info := LookupResult(hop.ip.value, look.locate); !(NonZero(info.latitude) && NonZero(info.longitude))
    ensures PlaceOf(PublicEnriched(hop, includeReputation, look)) == Place(None, None, None, None)
    ensures PublicEnriched(hop, includeReputation, look).organization ==
      (if look.city.CityRecord? && look.asn.AsnRecord? then look.asn.organization else None)
  {
    var ip := hop.ip.value;
    var (r1, found1) := AfterDatabases(Bare(hop), look);
    var (r2, found2) := AfterRemote(ip, r1, found1, look.locate);
    assert !found2 && r2 == r1;
  }

  /** With no location from the databases or the remote service, an 84.116.x.x
      hop is placed in Dublin and attributed to "Aorta Network". */
  lemma StaticTableFallback(hop: Hop, includeReputation: bool, look: Lookups)
    requires Enrichable(hop) && StartsWith(hop.ip.value, "84.116.")
    requires !(look.city.CityRecord? && NonZero(look.city.latitude) && NonZero(look.city.longitude))
    requires var info := LookupResult(hop.ip.value, look.locate); !(NonZero(info.latitude) && NonZero(info.longitude))
    ensures PlaceOf(PublicEnriched(hop, includeReputation, look)) == DublinPlace
    ensures PublicEnriched(hop, includeReputation, look).organization == Some("Aorta Network")
  {
  }

  // ---------------------------------------------------------------------
  // The processor object and its drivers
  // ---------------------------------------------------------------------

  /** The result of `process_traceroute`. */
  datatype TraceSummary = TraceSummary(target: string, hops: seq<EnrichedHop>, totalHops: nat, successfulHops: nat)

  /** The number of hops whose `ip` is not None. */
  function CountWithIp(hops: seq<Hop>): (n: nat)
    ensures n <= |hops|
  {
    if hops == [] then 0 else CountWithIp(hops[..|hops| - 1]) + (if hops[|hops| - 1].ip.Some? then 1 else 0)
  }

  /** Every hop enriched on its own, in order; hop `i` got the answers `answers(i)`. */
  function EnrichAll(hops: seq<Hop>, includeReputation: bool, env: Environment, testMode: bool,
                     answers: nat -> Lookups): (r: seq<EnrichedHop>)
    ensures |r| == |hops|
    ensures forall i :: 0 <= i < |hops| ==> r[i] == Enriched(hops[i], includeReputation, None, env, testMode, answers(i))
    ensures forall i :: 0 <= i < |hops| ==> KeepsHop(r[i], hops[i])
  {
    MapIndexed((i: nat, hop: Hop) => Enriched(hop, includeReputation, None, env, testMode, answers(i)), hops)
  }

  /** Enriching one more hop appends its record. */
  lemma EnrichAllStep(hops: seq<Hop>, i: nat, includeReputation: bool, env: Environment, testMode: bool,
                      answers: nat -> Lookups, r: EnrichedHop)
    requires i < |hops| && r == Enriched(hops[i], includeReputation, None, env, testMode, answers(i))
    ensures EnrichAll(hops[..i + 1], includeReputation, env, testMode, answers)
         == EnrichAll(hops[..i], includeReputation, env, testMode, answers) + [r]
  {
  }

  /** Hops with the same addresses, index by index, count the same. */
  lemma {:induction false} SameIpsSameCount(a: seq<Hop>, b: seq<Hop>)
    requires |a| == |b| && forall i :: 0 <= i < |a| ==> a[i].ip == b[i].ip
    ensures CountWithIp(a) == CountWithIp(b)
  {
    if a != [] {
      SameIpsSameCount(a[..|a| - 1], b[..|b| - 1]);
    }
  }

  /** The hop fields a record carries over. */
  function SourceHop(r: EnrichedHop): (h: Hop)
    ensures KeepsHop(r, h)
  {
    Hop(r.hopNumber, r.ip, r.hostname, r.rttMs)
  }

  /** The number of records whose `ip` is not None: the count over the hops they carry. */
  function CountRecordsWithIp(records: seq<EnrichedHop>): (n: nat)
    ensures n <= |records|
  {
    CountWithIp(MapIndexed((_: nat, r: EnrichedHop) => SourceHop(r), records))
  }

  /** `successful_hops` counts the hops with an address, which are exactly the
      returned records with an address. */
  lemma SummaryCountsRecords(hops: seq<Hop>, records: seq<EnrichedHop>)
    requires |records| == |hops| && forall i :: 0 <= i < |hops| ==> KeepsHop(records[i], hops[i])
    ensures CountWithIp(hops) == CountRecordsWithIp(records)
  {
    SameIpsSameCount(hops, MapIndexed((_: nat, r: EnrichedHop) => SourceHop(r), records));
  }

  /** `DataProcessor`: test mode, and the ipinfo client it owns. */
  class DataProcessor {
    const testMode: bool
    const service: IpInfoService

    constructor (testMode: bool)
      ensures this.testMode == testMode && fresh(service)
      ensures service.apiKey == None && service.session == None
    {
      this.testMode := testMode;
      service := new IpInfoService();
    }

    /** `_enrich_hop_data`: the dictionary is built and updated step by step. */
    method EnrichHopData(hop: Hop, includeReputation: bool, client: Option<ClientInfo>, env: Environment, look: Lookups)
      returns (r: EnrichedHop)
      modifies service
      ensures r == Enriched(hop, includeReputation, client, env, testMode, look)
      ensures service.apiKey == old(service.apiKey)
    {
      r := Bare(hop);
      if !(NonEmpty(hop.ip) && !StartsWith(hop.ip.value, "*")) {
        return;
      }
      var ip := hop.ip.value;
      if !IsIpLiteral(ip) {
        return;
      }
      var isPrivate := IsPrivateAddress(ip);
      if isPrivate || hop.hopNumber == 1 {
        r := EnrichLocal(hop, includeReputation, client, env);
      } else if testMode {
        r := WithPlace(r, Place(Some("Mountain View"), Some("United States"), Some(37.4056), Some(-122.0775)));
        r := r.(organization := Some("Google LLC"), asn := Some(15169));
        if includeReputation {
          r := r.(reputationScore := Some(0.8));
        }
      } else {
        r := EnrichPublic(hop, includeReputation, look);
      }
    }

    /** The local-network branch of `_enrich_hop_data`. */
    method EnrichLocal(hop: Hop, includeReputation: bool, client: Option<ClientInfo>, env: Environment)
      returns (r: EnrichedHop)
      ensures r == LocalEnriched(hop, includeReputation, client, env)
    {
      r := Bare(hop);
      if client.Some? && NonZero(client.value.latitude) && NonZero(client.value.longitude) {
        r := WithPlace(r, Place(client.value.city, client.value.country, client.value.latitude, client.value.longitude));
      } else {
        var defaults := ConfiguredDefault(env);
        if defaults.Some? {
          r := WithPlace(r, defaults.value);
        } else {
          r := WithPlace(r, GenericPlace);
        }
      }
      r := r.(organization := Some("Local Network"), asn := None);
      if includeReputation {
        r := r.(reputationScore := Some(0.0));
      }
    }

    /** The public-address branch of `_enrich_hop_data`, with its `location_found` flag. */
    method EnrichPublic(hop: Hop, includeReputation: bool, look: Lookups) returns (r: EnrichedHop)
      requires Enrichable(hop)
      modifies service
      ensures r == PublicEnriched(hop, includeReputation, look)
      ensures service.apiKey == old(service.apiKey)
    {
      var ip := hop.ip.value;
      r := Bare(hop);
      var locationFound := false;
      if look.city.CityRecord? {
        if NonZero(look.city.latitude) && NonZero(look.city.longitude) {
          r := WithPlace(r, Place(look.city.cityName, look.city.countryName, look.city.latitude, look.city.longitude));
          locationFound := true;
        }
        if look.asn.AsnRecord? {
          r := r.(organization := look.asn.organization, asn := look.asn.number);
        }
      }
      assert (r, locationFound) == AfterDatabases(Bare(hop), look);
      var r1, found1 := r, locationFound;
      if !locationFound {
        var _, info := service.GetIpInfo(ip, look.locate);
        if NonZero(info.latitude) && NonZero(info.longitude) {
          r := WithPlace(r, Place(info.city, info.country, info.latitude, info.longitude));
          r := r.(organization := info.org);
          locationFound := true;
        }
      }
      assert (r, locationFound) == AfterRemote(ip, r1, found1, look.locate);
      if !locationFound && StartsWith(ip, "84.116.") {
        r := WithPlace(r, DublinPlace).(organization := Some("Aorta Network"));
      }
      if includeReputation {
        var _, info := service.GetIpInfo(ip, look.reputation);
        r := r.(reputationScore := info.reputationScore);
      }
    }

    /** `process_traceroute_stream`: one enriched record per hop, in order. */
    method ProcessTracerouteStream(hops: seq<Hop>, includeReputation: bool, env: Environment, answers: nat -> Lookups)
      returns (records: seq<EnrichedHop>)
      modifies service
      ensures records == EnrichAll(hops, includeReputation, env, testMode, answers)
      ensures service.apiKey == old(service.apiKey)
    {
      records := [];
      var i := 0;
      while i < |hops|
        invariant 0 <= i <= |hops|
        invariant records == EnrichAll(hops[..i], includeReputation, env, testMode, answers)
        invariant service.apiKey == old(service.apiKey)
      {
        var r := EnrichHopData(hops[i], includeReputation, None, env, answers(i));
        EnrichAllStep(hops, i, includeReputation, env, testMode, answers, r);
        records := records + [r];
        i := i + 1;
      }
      assert hops[..|hops|] == hops;
    }

    /** `process_traceroute` over the hops the tracer produced. */
    method ProcessTraceroute(target: string, hops: seq<Hop>, includeReputation: bool, env: Environment,
                             answers: nat -> Lookups)
      returns (r: TraceSummary)
      modifies service
      ensures r.target == target && r.hops == EnrichAll(hops, includeReputation, env, testMode, answers)
      ensures r.totalHops == |hops| && r.successfulHops == CountWithIp(hops)
      ensures service.apiKey == old(service.apiKey)
    {
      var processed: seq<EnrichedHop> := [];
      var i := 0;
      while i < |hops|
        invariant 0 <= i <= |hops|
        invariant processed == EnrichAll(hops[..i], includeReputation, env, testMode, answers)
        invariant service.apiKey == old(service.apiKey)
      {
        var enriched := EnrichHopData(hops[i], includeReputation, None, env, answers(i));
        EnrichAllStep(hops, i, includeReputation, env, testMode, answers, enriched);
        processed := processed + [enriched];
        i := i + 1;
      }
      assert hops[..|hops|] == hops;
      r := TraceSummary(target, processed, |hops|, CountWithIp(hops));
    }

    /** `process_traceroute` on a tracer: in test mode the hops are collected
        from `run_stream`, otherwise from `run`; a failure of either (an
        unsupported platform) propagates before any hop is enriched. */
    method ProcessTracerouteOf(tracer: Tracer, os: string, lines: seq<string>, includeReputation: bool,
                               env: Environment, answers: nat -> Lookups)
      returns (r: Result<TraceSummary>)
      modifies service, tracer
      ensures var hops := CollectedHops(testMode, tracer.target, tracer.maxHops, tracer.timeout, tracer.retries, os, lines);
        && (r.Err? <==> hops.Err?)
        && (hops.Err? ==> r.message == hops.message)
        && (hops.Ok? ==> r.value == TraceSummary(tracer.target, EnrichAll(hops.value, includeReputation, env, testMode, answers),
                                                 |hops.value|, CountWithIp(hops.value)))
      ensures service.apiKey == old(service.apiKey)
      ensures testMode && BuildCommand(os, tracer.target, tracer.maxHops, tracer.timeout, tracer.retries).Ok? ==>
        tracer.process == None
      ensures BuildCommand(os, tracer.target, tracer.maxHops, tracer.timeout, tracer.retries).Err? || !testMode ==>
        tracer.process == old(tracer.process)
    {
      var hops: Result<seq<Hop>>;
      if testMode {
        hops := tracer.RunStream(os, lines);
      } else {
        hops := tracer.Run(os, lines);
      }
      if hops.Err? {
        return Err(hops.message);
      }
      var summary := ProcessTraceroute(tracer.target, hops.value, includeReputation, env, answers);
      r := Ok(summary);
    }
  }

  /** The hops `process_traceroute` collects from a tracer with these
      parameters when the process writes `lines`: those of `run_stream` (each
      line stripped first) in test mode, those of `run` otherwise. */
  function CollectedHops(testMode: bool, target: string, maxHops: Option<int>, timeout: real, retries: int,
                         os: string, lines: seq<string>): (r: Result<seq<Hop>>)
    ensures r.Err? <==> BuildCommand(os, target, maxHops, timeout, retries).Err?
    ensures r.Ok? ==> |r.value| <= |lines|
    ensures r.Ok? ==> forall h :: h in r.value <==>
      exists k :: 0 <= k < |lines| && ParseHop(if testMode then Strip(lines[k]) else lines[k]) == Some(h)
  {
    var cmd := BuildCommand(os, target, maxHops, timeout, retries);
    if cmd.Err? then Err(cmd.message)
    else if testMode then
      ParsedHopsAllMembers(StripAll(lines));
      Ok(ParsedHops(StripAll(lines)))
    else
      ParsedHopsAllMembers(lines);
      Ok(ParsedHops(lines))
  }

  // ---------------------------------------------------------------------
  // The ipinfo-only policy
  // ---------------------------------------------------------------------

  /** The dictionary `process_traceroute_stream_with_ip_info` yields. */
  datatype IpInfoHop = IpInfoHop(
    hopNumber: nat,
    ipAddress: Option<string>,
    hostname: Option<string>,
    rttMs: Option<seq<real>>,
    country: Option<string>,
    city: Option<string>,
    latitude: Option<real>,
    longitude: Option<real>,
    organization: Option<string>,
    reputationScore: Option<real>)

  predicate LocalPrefix(ip: string) {
    StartsWith(ip, "192.168.") || StartsWith(ip, "10.") || StartsWith(ip, "172.16.")
  }

  /** One hop under the ipinfo-only policy; `reply` is what ipinfo.io answered. */
  function IpInfoEnriched(hop: Hop, reply: HttpReply): (r: IpInfoHop)
    ensures r.hopNumber == hop.hopNumber && r.rttMs == hop.rttMs
    ensures !NonEmpty(hop.ip) ==> r == IpInfoHop(hop.hopNumber, None, None, hop.rttMs, None, None, None, None, None, None)
    ensures NonEmpty(hop.ip) ==> r.ipAddress == hop.ip && r.hostname == hop.hostname
    ensures NonEmpty(hop.ip) && LocalPrefix(hop.ip.value) ==>
      r.organization == Some("Local Network") && r.reputationScore == Some(0.5)
      && r.latitude == None && r.longitude == None && r.city == None && r.country == None
    ensures NonEmpty(hop.ip) && !LocalPrefix(hop.ip.value) ==>
      var info := LookupResult(hop.ip.value, reply);
      r.latitude == info.latitude && r.longitude == info.longitude && r.reputationScore == info.reputationScore
      && r.organization == info.org && r.city == info.city && r.country == info.country
  {
    if NonEmpty(hop.ip) then
      var ip := hop.ip.value;
      if LocalPrefix(ip) then
        IpInfoHop(hop.hopNumber, hop.ip, hop.hostname, hop.rttMs, None, None, None, None, Some("Local Network"), Some(0.5))
      else
        var info := LookupResult(ip, reply);
        IpInfoHop(hop.hopNumber, hop.ip, hop.hostname, hop.rttMs, info.country, info.city,
                  info.latitude, info.longitude, info.org, info.reputationScore)
    else IpInfoHop(hop.hopNumber, None, None, hop.rttMs, None, None, None, None, None, None)
  }

  /** `process_traceroute_stream_with_ip_info` over the tracer's hops; hop `i` got reply `replies(i)`. */
  function IpInfoEnrichAll(hops: seq<Hop>, replies: nat -> HttpReply): (r: seq<IpInfoHop>)
    ensures |r| == |hops|
    ensures forall i :: 0 <= i < |hops| ==> r[i] == IpInfoEnriched(hops[i], replies(i))
  {
    if hops == [] then []
    else
      var n := |hops| - 1;
      IpInfoEnrichAll(hops[..n], replies) + [IpInfoEnriched(hops[n], replies(n))]
  }

  /** The number of records whose `ip_address` is truthy. */
  function CountTruthyAddress(records: seq<IpInfoHop>): (n: nat)
    ensures n <= |records|
  {
    if records == [] then 0
    else CountTruthyAddress(records[..|records| - 1]) + (if NonEmpty(records[|records| - 1].ipAddress) then 1 else 0)
  }

  /** The result of `process_traceroute_with_ip_info`. */
  datatype IpInfoSummary = IpInfoSummary(target: string, hops: seq<IpInfoHop>, totalHops: nat, successfulHops: nat)

  /** `process_traceroute_with_ip_info`: the streamed records, their number and the truthy-address count. */
  function IpInfoSummaryOf(target: string, hops: seq<Hop>, replies: nat -> HttpReply): (r: IpInfoSummary)
    ensures r.hops == IpInfoEnrichAll(hops, replies) && r.totalHops == |hops|
    ensures r.successfulHops == CountTruthyAddress(r.hops) <= r.totalHops
  {
    var records := IpInfoEnrichAll(hops, replies);
    IpInfoSummary(target, records, |records|, CountTruthyAddress(records))
  }

  /** `process_traceroute_stream_with_ip_info` from its target: the tracer it
      creates (default timeout 1.0 and 3 retries) fails when the target does
      not resolve, `run_stream` fails on an unsupported platform, and otherwise
      hop `i` of the stripped lines' hops is enriched with reply `replies(i)`. */
  function IpInfoStreamOutcome(target: string, maxHops: int, resolved: Option<string>, os: string,
                               lines: seq<string>, replies: nat -> HttpReply): (r: Result<seq<IpInfoHop>>)
    ensures resolved.None? ==> r == Err("Could not resolve hostname: " + target)
    ensures resolved.Some? ==> (r.Err? <==> BuildCommand(os, target, Some(maxHops), 1.0, 3).Err?)
    ensures r.Ok? ==> var hops := ParsedHops(StripAll(lines));
      |r.value| == |hops| && forall i :: 0 <= i < |hops| ==> r.value[i] == IpInfoEnriched(hops[i], replies(i))
  {
    if resolved.None? then Err("Could not resolve hostname: " + target)
    else
      var cmd := BuildCommand(os, target, Some(maxHops), 1.0, 3);
      if cmd.Err? then Err(cmd.message)
      else Ok(IpInfoEnrichAll(ParsedHops(StripAll(lines)), replies))
  }

  /** `process_traceroute_with_ip_info` from its target: the generator's error
      propagates; otherwise the summary of the streamed records. */
  function IpInfoSummaryOutcome(target: string, maxHops: int, resolved: Option<string>, os: string,
                                lines: seq<string>, replies: nat -> HttpReply): (r: Result<IpInfoSummary>)
    ensures r.Err? <==> IpInfoStreamOutcome(target, maxHops, resolved, os, lines, replies).Err?
    ensures r.Ok? ==>
      && r.value.target == target
      && r.value.hops == IpInfoStreamOutcome(target, maxHops, resolved, os, lines, replies).value
      && r.value.totalHops == |ParsedHops(StripAll(lines))|
      && r.value.successfulHops == CountTruthyAddress(r.value.hops)
  {
    var records :- IpInfoStreamOutcome(target, maxHops, resolved, os, lines, replies);
    Ok(IpInfoSummaryOf(target, ParsedHops(StripAll(lines)), replies))
  }

  /** The two drivers count successful hops differently (`ip is not None`
      against a truthy `ip_address`), but for hops the parser produces, whose
      address is never empty, the counts agree. */
  lemma {:induction false} SuccessCountsAgree(hops: seq<Hop>, replies: nat -> HttpReply)
    requires forall i :: 0 <= i < |hops| ==> WellShaped(hops[i])
    ensures CountTruthyAddress(IpInfoEnrichAll(hops, replies)) == CountWithIp(hops)
  {
    if hops != [] {
      var n := |hops| - 1;
      SuccessCountsAgree(hops[..n], replies);
      var records := IpInfoEnrichAll(hops, replies);
      assert records[..n] == IpInfoEnrichAll(hops[..n], replies);
      assert WellShaped(hops[n]);
    }
  }
}
