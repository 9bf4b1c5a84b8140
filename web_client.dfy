/** The browser page's side of a trace (geotraceroute/web/static/js/app.js):
    the reassembly of server-sent events from the chunks the stream reader
    delivers, the choice of the events that carry a hop, the accumulation of
    hops and latencies, and the text of a result line and of the statistics
    panel. The page's global variables are the fields of `Page`. */
module WebClient {
  import opened Common

  // ---------------------------------------------------------------------
  // Payloads
  // ---------------------------------------------------------------------

  /** The members of an event's JSON payload that the page reads. */
  datatype Payload = Payload(
    hopNumber: Raw<int>,
    ip: Raw<string>,
    hostname: Raw<string>,
    rttMs: Raw<seq<real>>,
    latitude: Raw<real>,
    longitude: Raw<real>,
    city: Raw<string>,
    country: Raw<string>,
    organization: Raw<string>,
    reputationScore: Raw<real>,
    error: Raw<string>,
    status: Raw<string>,
    done: Raw<bool>)

  /** A text member that is truthy in JavaScript: present and non-empty. */
  predicate Truthy(s: Raw<string>) {
    s.Given? && s.value != ""
  }

  /** A number member that is truthy: present and non-zero. */
  predicate TruthyNumber(x: Raw<real>) {
    x.Given? && x.value != 0.0
  }

  /** `s || d` on a text member. */
  function TextOr(s: Raw<string>, d: string): string {
    if Truthy(s) then s.value else d
  }

  /** `hop.status === 'completed' || hop.done === true`. */
  predicate IsCompletion(p: Payload) {
    p.status == Given("completed") || p.done == Given(true)
  }

  // ---------------------------------------------------------------------
  // Averages and number formatting
  // ---------------------------------------------------------------------

  /** `xs.reduce((a, b) => a + b, 0)`. */
  function Sum(xs: seq<real>): real {
    if xs == [] then 0.0 else Sum(xs[..|xs| - 1]) + xs[|xs| - 1]
  }

  /** The arithmetic mean of a non-empty list. */
  function Mean(xs: seq<real>): real
    requires xs != []
  {
    Sum(xs) / |xs| as real
  }

  lemma {:induction false} SumWithin(xs: seq<real>, lo: real, hi: real)
    requires forall i :: 0 <= i < |xs| ==> lo <= xs[i] <= hi
    ensures |xs| as real * lo <= Sum(xs) <= |xs| as real * hi
  {
    if xs != [] {
      var n := |xs| - 1;
      SumWithin(xs[..n], lo, hi);
      assert |xs| as real * lo == n as real * lo + lo;
      assert |xs| as real * hi == n as real * hi + hi;
    }
  }

  /** An average lies between the least and the greatest of its values. */
  lemma {:induction false} MeanWithin(xs: seq<real>, lo: real, hi: real)
    requires xs != []
    requires forall i :: 0 <= i < |xs| ==> lo <= xs[i] <= hi
    ensures lo <= Mean(xs) <= hi
  {
    SumWithin(xs, lo, hi);
    var n := |xs| as real;
    var m := Mean(xs);
    assert m * n == Sum(xs);
  }

  /** The average RTT of a hop: present when `rtt_ms` is a non-empty list. */
  function AverageRtt(p: Payload): (a: Option<real>)
    ensures a.Some? <==> p.rttMs.Given? && p.rttMs.value != []
    ensures a.Some? ==> a.value == Mean(p.rttMs.value)
  {
    if p.rttMs.Given? && p.rttMs.value != [] then Some(Mean(p.rttMs.value)) else None
  }

  /** `10^f`. */
  function Scale(f: nat): (s: real)
    ensures s >= 1.0
  {
    if f == 0 then 1.0 else 10.0 * Scale(f - 1)
  }

  /** The integer nearest to `x * 10^f`, the larger one on a tie. */
  function RoundedScaled(x: real, f: nat): (n: nat)
    requires x >= 0.0
    ensures n as real - 0.5 <= x * Scale(f) < n as real + 0.5
  {
    var y := x * Scale(f);
    assert y >= 0.0;
    (y + 0.5).Floor
  }

  function Zeros(k: nat): (z: string)
    ensures |z| == k && forall i :: 0 <= i < k ==> z[i] == '0'
  {
    seq(k, _ => '0')
  }

  /** Zeros in front of a digit run leave its value unchanged. */
  lemma {:induction false} LeadingZerosValue(k: nat, ds: string)
    requires forall m :: 0 <= m < |ds| ==> IsDigit(ds[m])
    ensures DigitsValue(Zeros(k) + ds, 0, k + |ds|) == DigitsValue(ds, 0, |ds|)
  {
    var t := Zeros(k) + ds;
    if ds == [] {
      ZerosValue(t, k);
    } else {
      var front := ds[..|ds| - 1];
      LeadingZerosValue(k, front);
      DigitsValueSame(t, Zeros(k) + front, 0, k + |front|);
      DigitsValueSame(ds, front, 0, |front|);
    }
  }

  lemma {:induction false} ZerosValue(s: string, j: nat)
    requires j <= |s| && forall m :: 0 <= m < j ==> s[m] == '0'
    ensures DigitsValue(s, 0, j) == 0
  {
    if j > 0 {
      ZerosValue(s, j - 1);
    }
  }

  /** The layout `toFixed` gives a magnitude: digits only, with a point before
      the last `f` of them when `f > 0`, and at least one digit before it. */
  predicate FixedLayout(r: string, f: nat) {
    && r != [] && IsDigit(r[0])
    && (f == 0 ==> forall i :: 0 <= i < |r| ==> IsDigit(r[i]))
    && (f > 0 ==> |r| >= f + 2 && r[|r| - f - 1] == '.')
    && (f > 0 ==> forall i :: 0 <= i < |r| && i != |r| - f - 1 ==> IsDigit(r[i]))
  }

  /** The digits of a `toFixed` text with its point removed. */
  function Unpointed(r: string, f: nat): (u: string)
    requires FixedLayout(r, f)
    ensures |u| == (if f == 0 then |r| else |r| - 1)
    ensures forall i :: 0 <= i < |u| ==> IsDigit(u[i])
  {
    if f == 0 then r else r[..|r| - f - 1] + r[|r| - f..]
  }

  /** A digit run padded with leading zeros to at least `f + 1` digits. */
  function Padded(ds: string, f: nat): (p: string)
    requires forall i :: 0 <= i < |ds| ==> IsDigit(ds[i])
    ensures |p| >= f + 1 && forall i :: 0 <= i < |p| ==> IsDigit(p[i])
  {
    if |ds| <= f then Zeros(f + 1 - |ds|) + ds else ds
  }

  /** A padded digit run with a point before its last `f` digits when `f > 0`. */
  function PointedDigits(ds: string, f: nat): (r: string)
    requires forall i :: 0 <= i < |ds| ==> IsDigit(ds[i])
    ensures FixedLayout(r, f)
  {
    var padded := Padded(ds, f);
    if f == 0 then padded
    else padded[..|padded| - f] + "." + padded[|padded| - f..]
  }

  /** Removing the point gives back the padded digits. */
  lemma UnpointedPointed(ds: string, f: nat)
    requires forall i :: 0 <= i < |ds| ==> IsDigit(ds[i])
    ensures Unpointed(PointedDigits(ds, f), f) == Padded(ds, f)
  {
    if f > 0 {
      var padded, r := Padded(ds, f), PointedDigits(ds, f);
      var k := |padded| - f;
      assert r == padded[..k] + "." + padded[k..];
      assert |r| - f - 1 == k;
      assert r[..k] == padded[..k];
      assert r[k + 1..] == padded[k..];
      assert padded[..k] + padded[k..] == padded;
    }
  }

  /** Padding and the point leave the value of the digits unchanged. */
  lemma PointedDigitsValue(ds: string, f: nat)
    requires forall i :: 0 <= i < |ds| ==> IsDigit(ds[i])
    ensures var r := PointedDigits(ds, f);
      DigitsValue(Unpointed(r, f), 0, |Unpointed(r, f)|) == DigitsValue(ds, 0, |ds|)
  {
    UnpointedPointed(ds, f);
    var p := Padded(ds, f);
    if |ds| <= f {
      var k := f + 1 - |ds|;
      assert p == Zeros(k) + ds;
      LeadingZerosValue(k, ds);
    } else {
      assert p == ds;
    }
  }

  /** `x.toFixed(f)` for a non-negative `x`: the rounded digits, with exactly
      `f` of them after the decimal point and at least one before it. */
  function FixedMagnitude(x: real, f: nat): (r: string)
    requires x >= 0.0
    ensures r != [] && IsDigit(r[0])
    ensures f == 0 ==> forall i :: 0 <= i < |r| ==> IsDigit(r[i])
    ensures f > 0 ==> |r| >= f + 2 && r[|r| - f - 1] == '.'
    ensures f > 0 ==> forall i :: 0 <= i < |r| && i != |r| - f - 1 ==> IsDigit(r[i])
  {
    PointedDigits(NatToString(RoundedScaled(x, f)), f)
  }

  /** The digits `toFixed` shows, read without the point, are the magnitude
      scaled by `10^f` and rounded. */
  lemma FixedMagnitudeValue(x: real, f: nat)
    requires x >= 0.0
    ensures var r := FixedMagnitude(x, f);
      FixedLayout(r, f) && DigitsValue(Unpointed(r, f), 0, |Unpointed(r, f)|) == RoundedScaled(x, f)
  {
    NatToStringValue(RoundedScaled(x, f));
    PointedDigitsValue(NatToString(RoundedScaled(x, f)), f);
  }

  /** JavaScript's `x.toFixed(f)`: a minus sign for a negative number, then
      its magnitude rounded to `f` decimals. */
  function Fixed(x: real, f: nat): (r: string)
    ensures r != [] && r[0] != '*' && (r[0] == '-' <==> x < 0.0)
    ensures f > 0 ==> |r| >= f + 2 && r[|r| - f - 1] == '.'
  {
    if x < 0.0 then "-" + FixedMagnitude(-x, f) else FixedMagnitude(x, f)
  }

  /** After its sign, `x.toFixed(f)` shows `|x|` scaled by `10^f` and rounded. */
  lemma FixedValue(x: real, f: nat)
    ensures var r := Fixed(x, f);
      var m := if x < 0.0 then r[1..] else r;
      FixedLayout(m, f) && DigitsValue(Unpointed(m, f), 0, |Unpointed(m, f)|) == RoundedScaled(if x < 0.0 then -x else x, f)
  {
    var a := if x < 0.0 then -x else x;
    FixedMagnitudeValue(a, f);
    if x < 0.0 {
      assert Fixed(x, f)[1..] == FixedMagnitude(a, f);
    }
  }

  // ---------------------------------------------------------------------
  // The statistics panel
  // ---------------------------------------------------------------------

  /** The two texts `updateStats` writes: the hop count and the average latency. */
  datatype Stats = Stats(hopsText: string, latencyText: string)

  /** The hop-count text of `updateStats`: `${hopCount || 0} hops`. */
  function HopsText(hopCount: int): (t: string)
    ensures |t| > 5 && t[..|t| - 5] == IntToString(hopCount) && t[|t| - 5..] == " hops"
  {
    IntToString(if hopCount != 0 then hopCount else 0) + " hops"
  }

  /** The hop-count text reads "0 hops" exactly for a count of zero. */
  lemma {:induction false} HopsTextZero(hopCount: int)
    ensures HopsText(hopCount) == "0 hops" <==> hopCount == 0
  {
    var digits := IntToString(hopCount);
    assert HopsText(hopCount) == digits + " hops";
    if digits + " hops" == "0 hops" {
      assert digits == (digits + " hops")[..|digits|] == "0";
    }
  }

  /** The latency text of `updateStats`: "0 ms" exactly when there is no
      latency to average, and otherwise the average to two decimals. */
  function LatencyText(latencies: seq<real>): (t: string)
    ensures t == "0 ms" <==> latencies == []
    ensures latencies != [] ==> t == Fixed(Mean(latencies), 2) + " ms"
  {
    if latencies != [] then Fixed(Mean(latencies), 2) + " ms" else "0 ms"
  }

  /** `updateStats(hopCount, latencies)`. */
  function StatsFor(hopCount: int, latencies: seq<real>): (s: Stats)
    ensures s.hopsText == "0 hops" <==> hopCount == 0
    ensures s.latencyText == "0 ms" <==> latencies == []
  {
    HopsTextZero(hopCount);
    Stats(HopsText(hopCount), LatencyText(latencies))
  }

  /** The statistics texts the page shows before any trace and after `clearResults`. */
  const ClearedStats := Stats("0 hops", "0 ms")

  // ---------------------------------------------------------------------
  // One result line
  // ---------------------------------------------------------------------

  const TimeoutSpan := "<span class=\"hop-timeout\">* * *</span>"
  const NoResponseSpan := "<span class=\"hop-timeout\">No response</span>"

  /** The hop number that starts every line, with the space after it. */
  function NumberSpan(p: Payload): string {
    "<span class=\"hop-number\">" + IntToString(if p.hopNumber.Given? then p.hopNumber.value else 0) + ".</span> "
  }

  /** The location text: "city, country" when both are known, the country
      alone when only it is, and nothing otherwise. */
  function LocationText(p: Payload): (t: string)
    ensures t == "" <==> !Truthy(p.country)
    ensures Truthy(p.city) && Truthy(p.country) ==> t == p.city.value + ", " + p.country.value
    ensures !Truthy(p.city) && Truthy(p.country) ==> t == p.country.value
  {
    if Truthy(p.city) && Truthy(p.country) then p.city.value + ", " + p.country.value
    else if Truthy(p.country) then p.country.value
    else ""
  }

  /** The RTT text: the average to two decimals, or "*" without one. */
  function RttText(p: Payload): (t: string)
    ensures t != "*" <==> AverageRtt(p).Some?
  {
    match AverageRtt(p)
    case Some(avg) => Fixed(avg, 2)
    case None => "*"
  }

  /** The safety text, shown only when scores are switched on and the payload has one. */
  function ReputationText(p: Payload, show: bool): (t: string)
    ensures t != "" <==> show && p.reputationScore.Given?
    ensures t != "" ==> |t| > 12 && t[..8] == "Safety: " && t[|t| - 4..] == "/100"
  {
    if show && p.reputationScore.Given? then "Safety: " + Fixed(p.reputationScore.value * 100.0, 0) + "/100"
    else ""
  }

  /** The address part: the timeout mark without an address, and otherwise
      the address with the host name after it when there is one. */
  function AddressPart(p: Payload): (t: string)
    ensures TextOr(p.ip, "*") == "*" ==> t == TimeoutSpan
    ensures TextOr(p.ip, "*") != "*" ==> var ip := TextOr(p.ip, "*");
      && |t| >= 28 + |ip|
      && t[..28 + |ip|] == "<span class=\"hop-ip\">" + ip + "</span>"
      && (|t| == 28 + |ip| <==> TextOr(p.hostname, "") == "")
  {
    var ip := TextOr(p.ip, "*");
    var host := TextOr(p.hostname, "");
    if ip == "*" then TimeoutSpan
    else "<span class=\"hop-ip\">" + ip + "</span>" + (if host != "" then " <span class=\"hop-host\">(" + host + ")</span>" else "")
  }

  /** The parts after the address, each present only when it has a text. */
  function DetailParts(p: Payload, show: bool): (t: string)
    ensures t == "" <==>
      AverageRtt(p).None? && !Truthy(p.country) && !Truthy(p.organization) && !(show && p.reputationScore.Given?)
  {
    var rtt := RttText(p);
    var location := LocationText(p);
    var org := TextOr(p.organization, "");
    var reputation := ReputationText(p, show);
    (if rtt != "*" then " <span class=\"hop-rtt\">" + rtt + " ms</span>" else "")
    + (if location != "" then " <span class=\"hop-location\"><i class=\"fas fa-map-marker-alt\"></i> " + location + "</span>" else "")
    + (if org != "" then " <span class=\"hop-org\"><i class=\"fas fa-building\"></i> " + org + "</span>" else "")
    + (if reputation != "" then " <span class=\"hop-reputation\">" + reputation + "</span>" else "")
  }

  /** A hop shows nothing beyond its number: no address, no RTT, no
      location, no organisation and no shown safety score. */
  predicate ShowsNothing(p: Payload, show: bool) {
    TextOr(p.ip, "*") == "*" && AverageRtt(p).None? && !Truthy(p.country) && !Truthy(p.organization)
    && !(show && p.reputationScore.Given?)
  }

  /** `formatHopResult` (null payload, error, completion, then the hop line,
      with "No response" in place of a line that would show only "* * *"). */
  function FormatHopResult(hop: Option<Payload>, show: bool): (r: string)
    ensures hop.None? ==> r == "Error: Invalid hop data"
    ensures hop.Some? && Truthy(hop.value.error) ==> r == "Error: " + hop.value.error.value
    ensures hop.Some? && !Truthy(hop.value.error) && IsCompletion(hop.value) ==> r == "Traceroute completed."
  {
    match hop
    case None => "Error: Invalid hop data"
    case Some(p) =>
      if Truthy(p.error) then "Error: " + p.error.value
      else if IsCompletion(p) then "Traceroute completed."
      else
        var line := NumberSpan(p) + AddressPart(p) + DetailParts(p, show);
        if line == NumberSpan(p) + TimeoutSpan then NumberSpan(p) + NoResponseSpan else line
  }

  /** The address part is the timeout mark, or an address span whose class
      name differs from it at index 17. */
  lemma {:induction false} AddressPartShape(p: Payload)
    ensures TextOr(p.ip, "*") == "*" ==> AddressPart(p) == TimeoutSpan
    ensures TextOr(p.ip, "*") != "*" ==> |AddressPart(p)| > 17 && AddressPart(p)[17] == 'i'
  {
  }

  /** How a hop line compares with the two timeout texts, for any number,
      address part and details. */
  lemma {:induction false} LineVsTimeout(number: string, address: string, details: string)
    requires address == TimeoutSpan || (|address| > 17 && address[17] == 'i')
    ensures number + address + details == number + TimeoutSpan <==> address == TimeoutSpan && details == ""
    ensures number + address + details != number + NoResponseSpan
  {
    var line := number + address + details;
    var k := |number|;
    assert line[k..] == address + details;
    if address == TimeoutSpan {
      assert line[k + 26] == '*';
      assert (number + NoResponseSpan)[k + 26] == 'N';
      if details != "" {
        assert |line| > |number + TimeoutSpan|;
      }
    } else {
      assert line[k + 17] == 'i';
      assert (number + TimeoutSpan)[k + 17] == 't';
      assert (number + NoResponseSpan)[k + 17] == 't';
    }
  }

  /** A hop line reads "<n>. No response" exactly when the hop shows nothing
      beyond its number; otherwise it is the number, the address part and the
      details. */
  lemma {:induction false} NoResponseExactly(p: Payload, show: bool)
    requires !Truthy(p.error) && !IsCompletion(p)
    ensures FormatHopResult(Some(p), show) == NumberSpan(p) + NoResponseSpan <==> ShowsNothing(p, show)
    ensures !ShowsNothing(p, show) ==> FormatHopResult(Some(p), show) == NumberSpan(p) + AddressPart(p) + DetailParts(p, show)
  {
    var number, address, details := NumberSpan(p), AddressPart(p), DetailParts(p, show);
    AddressPartShape(p);
    LineVsTimeout(number, address, details);
    var line := number + address + details;
    assert FormatHopResult(Some(p), show) == if line == number + TimeoutSpan then number + NoResponseSpan else line;
  }

  datatype LineKind = Info | Success | Failure

  /** A line of the results list: a message, or the line `processSingleHop`
      adds for a hop (rendered by `LineText` and styled by `LineStyle`). */
  datatype ResultLine = Message(text: string, kind: LineKind) | HopLine(hop: Payload, show: bool)

  /** The HTML of a line. */
  function LineText(l: ResultLine): string {
    match l
    case Message(text, _) => text
    case HopLine(p, show) => FormatHopResult(Some(p), show)
  }

  /** The style of a line: a hop line is styled as an error exactly when its
      payload carries one. */
  function LineStyle(l: ResultLine): (k: LineKind)
    ensures l.HopLine? ==> (k == Failure <==> Truthy(l.hop.error))
    ensures l.HopLine? ==> k != Info
  {
    match l
    case Message(_, kind) => kind
    case HopLine(p, _) => if Truthy(p.error) then Failure else Success
  }

  /** The lines `processSingleHop` adds for `hops`, in order. */
  function ResultsOf(hops: seq<Payload>, show: bool): (ls: seq<ResultLine>)
    ensures |ls| == |hops| && forall i :: 0 <= i < |hops| ==> ls[i] == HopLine(hops[i], show)
  {
    seq(|hops|, i requires 0 <= i < |hops| => HopLine(hops[i], show))
  }

  /** The location `processSingleHop` reports: each member, or null when falsy. */
  datatype Location = Location(latitude: Option<real>, longitude: Option<real>, city: Option<string>, country: Option<string>)

  function NumberOrNull(x: Raw<real>): Option<real> {
    if TruthyNumber(x) then Some(x.value) else None
  }

  function TextOrNull(s: Raw<string>): Option<string> {
    if Truthy(s) then Some(s.value) else None
  }

  function LocationOf(p: Payload): Location {
    Location(NumberOrNull(p.latitude), NumberOrNull(p.longitude), TextOrNull(p.city), TextOrNull(p.country))
  }

  /** The averages the latency list gains from `hops`, in order. */
  function RttAverages(hops: seq<Payload>): (r: seq<real>)
    ensures |r| <= |hops|
  {
    FilterMap(AverageRtt, hops)
  }

  // ---------------------------------------------------------------------
  // Events
  // ---------------------------------------------------------------------

  /** The blank line that ends a server-sent event. */
  const EventSeparator := "\n\n"

  const DataPrefix := "data: "

  /** The events that `received` completes, in order. */
  function CompleteEvents(received: string): seq<string> {
    var parts := Split(received, EventSeparator);
    parts[..|parts| - 1]
  }

  /** The text after the last separator: an event still being received. */
  function Pending(received: string): string {
    var parts := Split(received, EventSeparator);
    parts[|parts| - 1]
  }

  /** Splitting the buffer loses nothing: the complete events, each followed
      by the separator, then the pending text, make up what was received; the
      pending text holds no separator, and no complete event holds the start
      of one at its end. */
  lemma {:induction false} EventsReassemble(received: string)
    ensures Join(CompleteEvents(received) + [Pending(received)], EventSeparator) == received
    ensures forall j :: !OccursAt(Pending(received), EventSeparator, j)
    ensures forall e :: e in CompleteEvents(received) ==> EndsCleanly(e, EventSeparator)
  {
    var parts := Split(received, EventSeparator);
    assert CompleteEvents(received) + [Pending(received)] == parts;
    JoinSplit(received, EventSeparator);
    SplitPiecesFree(received, EventSeparator);
    assert Pending(received) in parts;
    SplitPiecesClean(received, EventSeparator);
  }

  /** The JSON text of an event: what follows "data: ", trimmed, and nothing
      for another kind of event or an empty payload. */
  function EventData(event: string): (d: Option<string>)
    ensures !StartsWith(event, DataPrefix) ==> d.None?
    ensures StartsWith(event, DataPrefix) ==> (d.None? <==> IsBlank(event[|DataPrefix|..]))
    ensures d.Some? ==> d.value == Strip(event[|DataPrefix|..]) && d.value != ""
  {
    if StartsWith(event, DataPrefix) then
      var data := Strip(event[|DataPrefix|..]);
      if data == "" then None else Some(data)
    else None
  }

  /** The hop an event delivers to `processSingleHop`: a data event whose
      payload parses (`parse` stands for `tryFixAndParseJSON` and gives None
      for null and for a value that is not an object), is not the completion
      message and has a `hop_number` member. */
  function AcceptedHop(event: string, parse: string -> Option<Payload>): (h: Option<Payload>)
    ensures h.Some? ==> EventData(event).Some? && parse(EventData(event).value) == h
    ensures h.Some? ==> !IsCompletion(h.value) && !h.value.hopNumber.Missing?
    ensures EventData(event).Some? && parse(EventData(event).value).Some? ==>
      var p := parse(EventData(event).value).value;
      h.Some? <==> !IsCompletion(p) && !p.hopNumber.Missing?
  {
    match EventData(event)
    case None => None
    case Some(data) =>
      match parse(data)
      case None => None
      case Some(p) => if IsCompletion(p) || p.hopNumber.Missing? then None else Some(p)
  }

  /** The hops a sequence of events delivers, in order. */
  function AcceptedHops(events: seq<string>, parse: string -> Option<Payload>): (hs: seq<Payload>)
    ensures |hs| <= |events|
    ensures forall h :: h in hs ==> !IsCompletion(h) && !h.hopNumber.Missing?
  {
    if events == [] then []
    else
      var n := |events| - 1;
      var last := AcceptedHop(events[n], parse);
      AcceptedHops(events[..n], parse) + (if last.Some? then [last.value] else [])
  }

  lemma {:induction false} AcceptedHopsAppend(a: seq<string>, b: seq<string>, parse: string -> Option<Payload>)
    ensures AcceptedHops(a + b, parse) == AcceptedHops(a, parse) + AcceptedHops(b, parse)
    decreases |b|
  {
    if b == [] {
      assert a + b == a;
    } else {
      var n := |b| - 1;
      assert (a + b)[..|a + b| - 1] == a + b[..n];
      assert (a + b)[|a + b| - 1] == b[n];
      AcceptedHopsAppend(a, b[..n], parse);
    }
  }

  /** The text of a stream: its chunks, one after another. */
  function Concat(chunks: seq<string>): string {
    if chunks == [] then "" else Concat(chunks[..|chunks| - 1]) + chunks[|chunks| - 1]
  }

  /** One read of the reassembly loop: once `received` has been split into the
      processed events and the buffer, appending a chunk and splitting the
      buffer again splits the longer text into the same events, the events
      the buffer completes, and the new buffer. Delivering a stream in chunks
      therefore yields the events of the whole text, however it is cut. */
  lemma {:induction false} ReassemblyStep(received: string, processed: seq<string>, buffer: string, chunk: string)
    requires Split(received, EventSeparator) == processed + [buffer]
    requires forall e :: e in processed ==> EndsCleanly(e, EventSeparator)
    ensures Split(received + chunk, EventSeparator) ==
            processed + CompleteEvents(buffer + chunk) + [Pending(buffer + chunk)]
    ensures forall e :: e in processed + CompleteEvents(buffer + chunk) ==> EndsCleanly(e, EventSeparator)
  {
    var sep := EventSeparator;
    var events := CompleteEvents(buffer + chunk);
    var rest := Pending(buffer + chunk);
    JoinSplit(received, sep);
    JoinExtendLast(processed, buffer, chunk, sep);
    EventsReassemble(buffer + chunk);
    JoinFlatten(processed, events + [rest], sep);
    assert processed + (events + [rest]) == (processed + events) + [rest];
    SplitJoin(processed + events, rest, sep);
  }

  /** What the page accumulates over a trace: the hops, the latencies and
      the lines of the results list. */
  datatype Tally = Tally(hops: seq<Payload>, latencies: seq<real>, results: seq<ResultLine>)

  /** The tally after `accepted` went through `processSingleHop`, in order. */
  function Absorb(t: Tally, accepted: seq<Payload>, show: bool): (r: Tally)
    ensures r.hops == t.hops + accepted
    ensures r.latencies == t.latencies + RttAverages(accepted)
    ensures r.results == t.results + ResultsOf(accepted, show)
  {
    Tally(t.hops + accepted, t.latencies + RttAverages(accepted), t.results + ResultsOf(accepted, show))
  }

  /** Absorbing two batches one after the other is absorbing them together. */
  lemma {:induction false} AbsorbAppend(t: Tally, a: seq<Payload>, b: seq<Payload>, show: bool)
    ensures Absorb(Absorb(t, a, show), b, show) == Absorb(t, a + b, show)
  {
    RttAveragesAppend(a, b);
    ResultsOfAppend(a, b, show);
    assert (t.hops + a) + b == t.hops + (a + b);
  }

  lemma RttAveragesAppend(a: seq<Payload>, b: seq<Payload>)
    ensures RttAverages(a + b) == RttAverages(a) + RttAverages(b)
  {
    FilterMapAppend(AverageRtt, a, b);
  }

  /** Absorbing no hop changes nothing. */
  lemma AbsorbNothing(t: Tally, show: bool)
    ensures Absorb(t, [], show) == t
  {
    assert ResultsOf([], show) == [];
    assert t.hops + [] == t.hops && t.latencies + [] == t.latencies && t.results + [] == t.results;
  }

  lemma {:induction false} ResultsOfAppend(a: seq<Payload>, b: seq<Payload>, show: bool)
    ensures ResultsOf(a + b, show) == ResultsOf(a, show) + ResultsOf(b, show)
  {
    var l, r := ResultsOf(a + b, show), ResultsOf(a, show) + ResultsOf(b, show);
    assert |l| == |r|;
    forall i | 0 <= i < |l|
      ensures l[i] == r[i]
    {
      if i < |a| {
        assert (a + b)[i] == a[i];
      } else {
        assert (a + b)[i] == b[i - |a|];
      }
    }
  }

  /** The hop a single event delivers, as a list of zero or one hops. */
  function Delivered(event: string, parse: string -> Option<Payload>): (hs: seq<Payload>)
    ensures hs == AcceptedHops([event], parse)
  {
    var h := AcceptedHop(event, parse);
    assert [event][..0] == [];
    if h.Some? then [h.value] else []
  }

  // ---------------------------------------------------------------------
  // The page
  // ---------------------------------------------------------------------

  class Page {
    /** Hops received during the current trace. */
    var hops: seq<Payload>
    /** Average RTTs of the hops that had one. */
    var latencies: seq<real>
    /** The results list. */
    var results: seq<ResultLine>
    var hasReceivedValidHop: bool
    /** The statistics panel. */
    var stats: Stats
    var showReputationScores: bool

    function Tallied(): Tally
      reads this
    {
      Tally(hops, latencies, results)
    }

    /** The page as the script finds it when it loads. */
    constructor (showReputationScores: bool)
      ensures hops == [] && latencies == [] && results == [] && !hasReceivedValidHop
      ensures stats == ClearedStats && this.showReputationScores == showReputationScores
    {
      hops := [];
      latencies := [];
      results := [];
      hasReceivedValidHop := false;
      stats := ClearedStats;
      this.showReputationScores := showReputationScores;
    }

    /** The synchronous start of `startTraceroute`: an empty target (after
        trimming) is refused; otherwise `clearResults` empties the results,
        the hops and the latencies and resets the statistics, and the first
        line announces the target. */
    method BeginTrace(input: string) returns (started: bool)
      modifies this
      ensures started <==> Strip(input) != ""
      ensures !started ==> Tallied() == old(Tallied()) && hasReceivedValidHop == old(hasReceivedValidHop)
                           && stats == old(stats)
      ensures started ==> hops == [] && latencies == [] && !hasReceivedValidHop && stats == ClearedStats
      ensures started ==> results == [Message("Tracing route to " + Strip(input) + "...", Info)]
      ensures showReputationScores == old(showReputationScores)
    {
      var target := Strip(input);
      if target == "" {
        return false;
      }
      results := [];
      hops := [];
      latencies := [];
      stats := ClearedStats;
      hasReceivedValidHop := false;
      results := results + [Message("Tracing route to " + target + "...", Info)];
      started := true;
    }

    /** `processSingleHop`: without a payload nothing changes; otherwise the
        hop's average RTT (when it has one) joins `latencies`, its line joins
        the results and the hop joins `hops`. The count returned is always
        the number of hops. */
    method ProcessSingleHop(hop: Option<Payload>) returns (hopCount: int, lastLocation: Option<Location>)
      modifies this
      ensures hop.None? ==> Tallied() == old(Tallied()) && lastLocation == None
      ensures hop.Some? ==> Tallied() == Absorb(old(Tallied()), [hop.value], showReputationScores)
      ensures hop.Some? ==> lastLocation == Some(LocationOf(hop.value))
      ensures hopCount == |hops|
      ensures hasReceivedValidHop == old(hasReceivedValidHop) && stats == old(stats)
      ensures showReputationScores == old(showReputationScores)
    {
      if hop.None? {
        return |hops|, None;
      }
      var p := hop.value;
      var avg := AverageRtt(p);
      if avg.Some? {
        latencies := latencies + [avg.value];
      }
      results := results + [HopLine(p, showReputationScores)];
      hops := hops + [p];
      hopCount, lastLocation := |hops|, Some(LocationOf(p));
    }

    /** `updateStats`, shown with the page's latencies. */
    method UpdateStats(hopCount: int)
      modifies this
      ensures stats == StatsFor(hopCount, latencies)
      ensures Tallied() == old(Tallied())
      ensures hasReceivedValidHop == old(hasReceivedValidHop) && showReputationScores == old(showReputationScores)
    {
      var count := if hopCount != 0 then hopCount else 0;
      var hopsText := IntToString(count) + " hops";
      if latencies != [] {
        stats := Stats(hopsText, Fixed(Mean(latencies), 2) + " ms");
      } else {
        stats := Stats(hopsText, "0 ms");
      }
    }

    /** One event of the stream: a delivered hop is processed, marks the
        stream as having sent a valid hop and updates the statistics; any
        other event changes nothing. `hopCount` is the stream's own count. */
    method HandleEvent(event: string, parse: string -> Option<Payload>, hopCount: int) returns (count: int)
      modifies this
      ensures var d := Delivered(event, parse);
        && Tallied() == Absorb(old(Tallied()), d, showReputationScores)
        && hasReceivedValidHop == (old(hasReceivedValidHop) || d != [])
        && count == (if d == [] then hopCount else |hops|)
        && stats == (if d == [] then old(stats) else StatsFor(|hops|, latencies))
      ensures showReputationScores == old(showReputationScores)
    {
      count := hopCount;
      AbsorbNothing(Tallied(), showReputationScores);
      var data := EventData(event);
      if data.None? {
        assert Delivered(event, parse) == [];
        return;
      }
      var hop := parse(data.value);
      if hop.Some? && IsCompletion(hop.value) {
        assert Delivered(event, parse) == [];
        return;
      }
      if hop.Some? && !hop.value.hopNumber.Missing? {
        assert Delivered(event, parse) == [hop.value];
        hasReceivedValidHop := true;
        var lastLocation;
        count, lastLocation := ProcessSingleHop(hop);
        UpdateStats(count);
      } else {
        assert Delivered(event, parse) == [];
      }
    }

    /** The loop over the events one read completes. */
    method HandleEvents(events: seq<string>, parse: string -> Option<Payload>, hopCount: int) returns (count: int)
      modifies this
      ensures var accepted := AcceptedHops(events, parse);
        && Tallied() == Absorb(old(Tallied()), accepted, showReputationScores)
        && hasReceivedValidHop == (old(hasReceivedValidHop) || accepted != [])
        && count == (if accepted == [] then hopCount else |hops|)
        && stats == (if accepted == [] then old(stats) else StatsFor(|hops|, latencies))
      ensures showReputationScores == old(showReputationScores)
    {
      count := hopCount;
      var i := 0;
      assert events[..0] == [];
      AbsorbNothing(Tallied(), showReputationScores);
      assert AcceptedHops(events[..0], parse) == [];
      while i < |events|
        invariant 0 <= i <= |events|
        invariant showReputationScores == old(showReputationScores)
        invariant var accepted := AcceptedHops(events[..i], parse);
          && Tallied() == Absorb(old(Tallied()), accepted, showReputationScores)
          && hasReceivedValidHop == (old(hasReceivedValidHop) || accepted != [])
          && count == (if accepted == [] then hopCount else |hops|)
          && stats == (if accepted == [] then old(stats) else StatsFor(|hops|, latencies))
      {
        ghost var before := AcceptedHops(events[..i], parse);
        ghost var d := Delivered(events[i], parse);
        ghost var t0 := Tallied();
        count := HandleEvent(events[i], parse, count);
        if d == [] {
          AbsorbNothing(t0, showReputationScores);
        }
        AcceptedHopsNext(events, i, parse);
        AbsorbAppend(old(Tallied()), before, d, showReputationScores);
        ghost var after := AcceptedHops(events[..i + 1], parse);
        assert Tallied() == Absorb(old(Tallied()), after, showReputationScores);
        assert hasReceivedValidHop == (old(hasReceivedValidHop) || after != []);
        assert count == (if after == [] then hopCount else |hops|);
        assert stats == (if after == [] then old(stats) else StatsFor(|hops|, latencies));
        i := i + 1;
      }
      assert events[..i] == events;
    }

    /** `processStream` over the chunks the reader delivers before the stream
        ends (or before a stop request is seen): the events are cut out of the
        buffer as their separators arrive, and the hops they deliver are
        processed in order; the text after the last separator is never
        processed. The result is whether any hop arrived. The statistics end
        on the stream's own hop count (see `FinalStatsAsWritten`). */
    method ProcessStream(chunks: seq<string>, parse: string -> Option<Payload>) returns (success: bool)
      modifies this
      ensures var accepted := AcceptedHops(CompleteEvents(Concat(chunks)), parse);
        && Tallied() == Absorb(old(Tallied()), accepted, showReputationScores)
        && stats == StatsFor(if accepted == [] then 0 else |hops|, latencies)
        && (success <==> accepted != [] || old(hops) != [])
      ensures hasReceivedValidHop == success
      ensures showReputationScores == old(showReputationScores)
    {
      var buffer := "";
      hasReceivedValidHop := false;
      var hopCount := 0;
      ghost var processed: seq<string> := [];
      var i := 0;
      while i < |chunks|
        invariant 0 <= i <= |chunks|
        invariant showReputationScores == old(showReputationScores)
        invariant Split(Concat(chunks[..i]), EventSeparator) == processed + [buffer]
        invariant forall e :: e in processed ==> EndsCleanly(e, EventSeparator)
        invariant var accepted := AcceptedHops(processed, parse);
          && Tallied() == Absorb(old(Tallied()), accepted, showReputationScores)
          && hasReceivedValidHop == (accepted != [])
          && hopCount == (if accepted == [] then 0 else |hops|)
      {
        ghost var before := AcceptedHops(processed, parse);
        var received := buffer + chunks[i];
        var events := CompleteEvents(received);
        ReassemblyStep(Concat(chunks[..i]), processed, buffer, chunks[i]);
        assert chunks[..i + 1][..i] == chunks[..i];
        buffer := Pending(received);
        hopCount := HandleEvents(events, parse, hopCount);
        AcceptedHopsAppend(processed, events, parse);
        AbsorbAppend(old(Tallied()), before, AcceptedHops(events, parse), showReputationScores);
        processed := processed + events;
        i := i + 1;
      }
      assert chunks[..i] == chunks;
      assert processed == CompleteEvents(Concat(chunks));
      UpdateStats(hopCount);
      if !hasReceivedValidHop && hops != [] {
        hasReceivedValidHop := true;
      }
      success := hasReceivedValidHop;
    }
  }

  /** The hops of one more event are those delivered so far followed by what it delivers. */
  lemma {:induction false} AcceptedHopsNext(events: seq<string>, i: nat, parse: string -> Option<Payload>)
    requires i < |events|
    ensures AcceptedHops(events[..i + 1], parse) == AcceptedHops(events[..i], parse) + Delivered(events[i], parse)
    ensures AcceptedHops(events[..i + 1], parse) == [] <==>
            AcceptedHops(events[..i], parse) == [] && Delivered(events[i], parse) == []
  {
    assert events[..i + 1] == events[..i] + [events[i]];
    AcceptedHopsAppend(events[..i], [events[i]], parse);
    var a, d := AcceptedHops(events[..i], parse), Delivered(events[i], parse);
    assert |a + d| == |a| + |d|;
  }

  // ---------------------------------------------------------------------
  // The final statistics as written
  // ---------------------------------------------------------------------

  /** The statistics `processStream` writes last, as written: its own
      `let hopCount` lives inside the `try` block, so the update after the
      block reads the page-level `hopCount`, which is 0 when the script loads
      and is never given another value. */
  function FinalStatsAsWritten(pageHopCount: int, latencies: seq<real>): (s: Stats)
    ensures s.hopsText == "0 hops" <==> pageHopCount == 0
    ensures s.latencyText == "0 ms" <==> latencies == []
  {
    StatsFor(if pageHopCount != 0 then pageHopCount else 0, latencies)
  }

  /** Whatever the stream delivered, the panel as written ends on "0 hops";
      the stream's own count, which `ProcessStream` shows, reads "0 hops"
      only when no hop arrived. */
  lemma {:induction false} FinalStatsShowNoHops(latencies: seq<real>, streamCount: int)
    ensures FinalStatsAsWritten(0, latencies).hopsText == "0 hops"
    ensures StatsFor(streamCount, latencies).hopsText == "0 hops" <==> streamCount == 0
  {
    HopsTextZero(0);
    HopsTextZero(streamCount);
  }
}
