/** The ipinfo.io client (geotraceroute/core/ip_info.py): the record it
    builds from a reply, the reputation heuristic, and the service object
    that holds the API key and the HTTP session. The network is a parameter:
    `HttpReply` is what the request came back with. */
module IpInfo {
  import opened Common

  /** A member of the reply's JSON object as `data.get(name)` sees it. */
  datatype Field = Absent | Null | Text(text: string) | NotText

  /** The reply's JSON object, reduced to the members the client reads. */
  datatype Body = Body(country: Option<string>, city: Option<string>, loc: Field, org: Field)

  /** What the GET request came back with: no reply at all (connection error,
      timeout), or a status and a body that is a JSON object (None when it is
      not JSON or not an object). */
  datatype HttpReply = ConnectionFailed | Reply(status: int, body: Option<Body>)

  /** The `IPInfo` dataclass. */
  datatype IpRecord = IpRecord(
    ip: string,
    country: Option<string>,
    city: Option<string>,
    latitude: Option<real>,
    longitude: Option<real>,
    org: Option<string>,
    reputationScore: Option<real>)

  /** The record every failure path returns: the address and nothing else. */
  function Minimal(ip: string): IpRecord {
    IpRecord(ip, None, None, None, None, None, None)
  }

  predicate IsMinimal(r: IpRecord) {
    r.country == None && r.city == None && r.latitude == None && r.longitude == None
    && r.org == None && r.reputationScore == None
  }

  /** `_calculate_reputation_score` on the organisation text: 0.5, raised by
      0.3 for a Google or Cloudflare network and otherwise by 0.2 for an
      Amazon or Microsoft one, matched without regard to case, then clamped
      to [0, 1]. */
  function ReputationScore(org: string): (r: real)
    ensures 0.0 <= r <= 1.0
    ensures r == 0.8 <==> Contains(Lower(org), "google") || Contains(Lower(org), "cloudflare")
    ensures r == 0.7 <==> !(Contains(Lower(org), "google") || Contains(Lower(org), "cloudflare"))
                          && (Contains(Lower(org), "amazon") || Contains(Lower(org), "microsoft"))
    ensures r == 0.5 || r == 0.7 || r == 0.8
  {
    var lower := Lower(org);
    var score := 0.5
      + if Contains(lower, "google") || Contains(lower, "cloudflare") then 0.3
        else if Contains(lower, "amazon") || Contains(lower, "microsoft") then 0.2
        else 0.0;
    Min(Max(score, 0.0), 1.0)
  }

  function Max(a: real, b: real): real { if a >= b then a else b }
  function Min(a: real, b: real): real { if a <= b then a else b }

  /** The score depends only on the organisation text up to letter case. */
  lemma {:induction false} ScoreIgnoresCase(a: string, b: string)
    requires |a| == |b| && forall i :: 0 <= i < |a| ==> LowerChar(a[i]) == LowerChar(b[i])
    ensures ReputationScore(a) == ReputationScore(b)
  {
    assert Lower(a) == Lower(b);
  }

  /** `data.get(name, '')` when the caller goes on to call a string method on it:
      a missing member is the empty text, and a null or non-text member makes the
      method call raise `AttributeError`. */
  function TextOrEmpty(f: Field): (r: Result<string>)
    ensures r.Ok? <==> f.Absent? || f.Text?
    ensures f.Text? ==> r == Ok(f.text)
    ensures f.Absent? ==> r == Ok("")
  {
    match f
    case Absent => Ok("")
    case Text(t) => Ok(t)
    case _ => Err("AttributeError")
  }

  /** `float(part) if part else None`, with the ValueError as None. */
  function Coordinate(part: string): (r: Result<Option<real>>)
    ensures part == "" ==> r == Ok(None)
    ensures part != "" ==> (r.Ok? <==> ParseFloat(part).Some?)
    ensures r.Ok? && part != "" ==> r.value == ParseFloat(part)
  {
    if part == "" then Ok(None)
    else
      var x := ParseFloat(part);
      if x.None? then Err("ValueError") else Ok(x)
  }

  /** `_parse_ip_info`: the latitude and longitude are the first two
      comma-separated parts of `loc`, the organisation and place are copied,
      and the score comes from the organisation. A number `float()` rejects
      gives the minimal record; a `loc` or `org` that is null or not text
      raises `AttributeError`, which this function does not catch (Err). */
  function ParseIpInfo(ip: string, data: Body): (r: Result<IpRecord>)
    ensures r.Ok? ==> r.value.ip == ip
    ensures r.Err? <==> TextOrEmpty(data.loc).Err?
                        || (CoordinatesOf(TextOrEmpty(data.loc).value).Ok? && TextOrEmpty(data.org).Err?)
    ensures r.Ok? && !IsMinimal(r.value) ==> r.value.reputationScore.Some?
    ensures TextOrEmpty(data.loc).Ok? && CoordinatesOf(TextOrEmpty(data.loc).value).Err? ==>
      r == Ok(Minimal(ip))
    ensures TextOrEmpty(data.loc).Ok? && CoordinatesOf(TextOrEmpty(data.loc).value).Ok? && TextOrEmpty(data.org).Ok? ==>
      r.Ok? && r.value.reputationScore.Some?
    ensures r.Ok? && r.value.reputationScore.Some? ==>
      && TextOrEmpty(data.loc).Ok? && TextOrEmpty(data.org).Ok?
      && CoordinatesOf(TextOrEmpty(data.loc).value).Ok?
      && (r.value.latitude, r.value.longitude) == CoordinatesOf(TextOrEmpty(data.loc).value).value
      && r.value.reputationScore.value == ReputationScore(TextOrEmpty(data.org).value)
      && r.value.country == data.country && r.value.city == data.city
      && (r.value.org.Some? <==> data.org.Text?)
      && (data.org.Text? ==> r.value.org.value == data.org.text)
  {
    var loc :- TextOrEmpty(data.loc);
    match CoordinatesOf(loc)
    case Err(_) => Ok(Minimal(ip))
    case Ok((latitude, longitude)) =>
      var org :- TextOrEmpty(data.org);
      Ok(IpRecord(ip, data.country, data.city, latitude, longitude,
                  if data.org.Text? then Some(data.org.text) else None,
                  Some(ReputationScore(org))))
  }

  /** The coordinates of a `loc` text: its first part, and its second part when
      there is one; Err when either non-empty part is not a number. */
  function CoordinatesOf(loc: string): (r: Result<(Option<real>, Option<real>)>)
  {
    var parts := Split(loc, ",");
    var latitude :- Coordinate(parts[0]);
    var longitude :- if |parts| > 1 then Coordinate(parts[1]) else Ok(None);
    Ok((latitude, longitude))
  }

  /** The `loc` member is read as "latitude,longitude": with a single comma and
      two numbers, the record holds those two numbers. */
  lemma {:induction false} CoordinatesOfPair(a: string, b: string)
    requires !Contains(a, ",") && !Contains(b, ",")
    requires ParseFloat(a).Some? && ParseFloat(b).Some?
    ensures CoordinatesOf(a + "," + b) == Ok((ParseFloat(a), ParseFloat(b)))
  {
    var s := a + "," + b;
    JoinSplit(s, ",");
    SplitOfPair(a, b);
  }

  /** Splitting "a,b" on ',' when neither part holds a comma gives [a, b]. */
  lemma {:induction false} SplitOfPair(a: string, b: string)
    requires !Contains(a, ",") && !Contains(b, ",")
    ensures Split(a + "," + b, ",") == [a, b]
  {
    var s := a + "," + b;
    ContainsMeans(a, ",");
    ContainsMeans(b, ",");
    assert OccursAt(s, ",", |a|);
    var f := FindFrom(s, ",", 0);
    assert f.Some? && f.value <= |a|;
    if f.value < |a| {
      assert s[f.value..f.value + 1] == a[f.value..f.value + 1];
      assert OccursAt(a, ",", f.value);
    }
    var rest := s[|a| + 1..];
    assert rest == b;
    assert s[..|a|] == a;
    assert FindFrom(b, ",", 0) == None;
  }

  /** `get_ip_info` after the request: anything but status 200 with a JSON
      object, and any exception while reading it, gives the minimal record. */
  function LookupResult(ip: string, reply: HttpReply): (r: IpRecord)
    ensures r.ip == ip
    ensures !(reply.Reply? && reply.status == 200 && reply.body.Some?) ==> r == Minimal(ip)
    ensures reply.Reply? && reply.status == 200 && reply.body.Some? ==>
      r == (match ParseIpInfo(ip, reply.body.value) case Ok(rec) => rec case Err(_) => Minimal(ip))
  {
    match reply
    case ConnectionFailed => Minimal(ip)
    case Reply(status, body) =>
      if status != 200 || body.None? then Minimal(ip)
      else match ParseIpInfo(ip, body.value)
        case Ok(rec) => rec
        case Err(_) => Minimal(ip)
  }

  /** Every record the client hands out is either minimal or carries a score of 0.5, 0.7 or 0.8. */
  lemma LookupIsMinimalOrScored(ip: string, reply: HttpReply)
    ensures var r := LookupResult(ip, reply);
      r == Minimal(ip) || (r.reputationScore.Some? && r.reputationScore.value in {0.5, 0.7, 0.8})
  {
    var r := LookupResult(ip, reply);
    if reply.Reply? && reply.status == 200 && reply.body.Some? {
      var p := ParseIpInfo(ip, reply.body.value);
      if p.Ok? && !IsMinimal(p.value) {
        var s := ReputationScore(TextOrEmpty(reply.body.value.org).value);
        assert s == 0.5 || s == 0.7 || s == 0.8;
      }
    }
  }

  /** A request to ipinfo.io: the URL and the Authorization header, if any. */
  datatype Request = Request(url: string, authorization: Option<string>)

  /** An aiohttp client session. */
  class Session {
    var closed: bool

    constructor ()
      ensures !closed
    {
      closed := false;
    }

    method Close()
      modifies this
      ensures closed
    {
      closed := true;
    }
  }

  /** `IPInfoService`: the API key (none at first) and the lazily opened session. */
  class IpInfoService {
    var apiKey: Option<string>
    var session: Option<Session>

    constructor ()
      ensures apiKey == None && session == None
    {
      apiKey := None;
      session := None;
    }

    /** The `api_key` setter. */
    method SetApiKey(value: Option<string>)
      modifies this
      ensures apiKey == value && session == old(session)
    {
      apiKey := value;
    }

    /** The request `get_ip_info` sends for `ip`: the key goes in a bearer
        header only when it is set and non-empty. */
    function RequestFor(ip: string): (r: Request)
      reads this
      ensures r.url == "https://ipinfo.io/" + ip + "/json"
      ensures r.authorization.Some? <==> NonEmpty(apiKey)
      ensures r.authorization.Some? ==> (|r.authorization.value| == 7 + |apiKey.value|
        && r.authorization.value[..7] == "Bearer " && r.authorization.value[7..] == apiKey.value)
    {
      Request("https://ipinfo.io/" + ip + "/json",
              if apiKey.Some? && apiKey.value != "" then Some("Bearer " + apiKey.value) else None)
    }

    /** `_get_session`: reuse the open session, otherwise open a new one. */
    method GetSession() returns (s: Session)
      modifies this
      ensures session == Some(s) && !s.closed && apiKey == old(apiKey)
      ensures old(session.Some? && !session.value.closed) ==> s == old(session).value
      ensures old(session.None? || session.value.closed) ==> fresh(s)
    {
      if session.None? || session.value.closed {
        var created := new Session();
        session := Some(created);
      }
      s := session.value;
    }

    /** `get_ip_info`: the session is opened (or reused), the request for `ip`
        is sent, and `reply` is what came back. */
    method GetIpInfo(ip: string, reply: HttpReply) returns (sent: Request, r: IpRecord)
      modifies this
      ensures sent == RequestFor(ip) && r == LookupResult(ip, reply)
      ensures apiKey == old(apiKey) && session.Some? && !session.value.closed
    {
      var _ := GetSession();
      sent := RequestFor(ip);
      r := LookupResult(ip, reply);
    }

    /** The session objects `Close` may change. */
    function Sessions(): set<object>
      reads this
    {
      if session.Some? then {session.value} else {}
    }

    /** `close`: an open session is closed and released; otherwise nothing changes. */
    method Close()
      modifies this, Sessions()
      ensures apiKey == old(apiKey)
      ensures old(session.Some? && !session.value.closed) ==> old(session).value.closed && session == None
      ensures old(session.None? || session.value.closed) ==> session == old(session)
    {
      if session.Some? && !session.value.closed {
        session.value.Close();
        session := None;
      }
    }
  }
}
