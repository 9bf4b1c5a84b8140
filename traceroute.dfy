/** The probe runner and its output parser (geotraceroute/core/traceroute.py).

    Each regular expression of `_parse_hop` is a recogniser over the line's
    characters. Every quantifier in those expressions is forced to take its
    longest run (what follows it can never start inside the run), so a
    recogniser scans deterministically and records each capture group as
    a span of the line. `ParseHop` tries the recognisers in the source's
    order and turns the first match into a `Hop`. */
module Traceroute {
  import opened Common

  /** One probe distance: `rttMs` is Python's `Optional[List[float]]`. */
  datatype Hop = Hop(hopNumber: nat, ip: Option<string>, hostname: Option<string>, rttMs: Option<seq<real>>)

  /** A capture group: the characters `s[lo..hi]` of the line. */
  datatype Group = Group(lo: nat, hi: nat)

  /** A non-empty group inside `s` whose characters all belong to class `k`. */
  predicate GroupOf(s: string, g: Group, k: CharClass) {
    g.lo < g.hi <= |s| && forall m :: g.lo <= m < g.hi ==> InClass(s[m], k)
  }

  function Text(s: string, g: Group): string
    requires g.lo <= g.hi <= |s|
  {
    s[g.lo..g.hi]
  }

  // ---------------------------------------------------------------------
  // Regular-expression atoms. Each gives the index after what it consumed.
  // ---------------------------------------------------------------------

  /** `k+` at `i`. */
  function Plus(s: string, i: nat, k: CharClass): (r: Option<nat>)
    requires i <= |s|
    ensures r.Some? ==> i < r.value <= |s| && GroupOf(s, Group(i, r.value), k)
    ensures r.Some? ==> r.value == |s| || !InClass(s[r.value], k)
  {
    var j := Span(s, i, |s|, k);
    if j == i then None else Some(j)
  }

  /** The literal character `c` at `i`. */
  function Char(s: string, i: nat, c: char): (r: Option<nat>)
    requires i <= |s|
    ensures r.Some? ==> r.value == i + 1 <= |s| && s[i] == c
  {
    if i < |s| && s[i] == c then Some(i + 1) else None
  }

  /** `\s*ms` at `i`. */
  function Ms(s: string, i: nat): (r: Option<nat>)
    requires i <= |s|
    ensures r.Some? ==> i < r.value <= |s|
  {
    var j := Span(s, i, |s|, Space);
    if j + 2 <= |s| && s[j] == 'm' && s[j + 1] == 's' then Some(j + 2) else None
  }

  /** `(k+)\s*ms` at `i`: the captured number and the index after "ms". */
  function Timed(s: string, i: nat, k: CharClass): (r: Option<(Group, nat)>)
    requires i <= |s|
    ensures r.Some? ==> GroupOf(s, r.value.0, k) && r.value.0.lo == i && r.value.0.hi < r.value.1 <= |s|
  {
    var j :- Plus(s, i, k);
    var e :- Ms(s, j);
    Some((Group(i, j), e))
  }

  /** `\s+([0-9.]+)\s*ms` at `i`: one reply time. */
  function RttItem(s: string, i: nat): (r: Option<(Group, nat)>)
    requires i <= |s|
    ensures r.Some? ==> GroupOf(s, r.value.0, NumberChar) && i < r.value.0.lo && r.value.0.hi < r.value.1 <= |s|
  {
    var j :- Plus(s, i, Space);
    Timed(s, j, NumberChar)
  }

  /** `^\s*(\d+)\s+`: the hop-number group and the index after the spaces. */
  function HopPrefix(s: string): (r: Option<(Group, nat)>)
    ensures r.Some? ==> GroupOf(s, r.value.0, Digit) && r.value.0.hi < r.value.1 <= |s|
  {
    var i := Span(s, 0, |s|, Space);
    var j :- Plus(s, i, Digit);
    var k :- Plus(s, j, Space);
    Some((Group(i, j), k))
  }

  // ---------------------------------------------------------------------
  // The four line shapes, one recogniser each
  // ---------------------------------------------------------------------

  /** traceroute.py:117, a timeout then an address and two reply times:
      `^\s*(\d+)\s+\*\s+([^\s]+)\s+([0-9.]+)\s*ms\s+([0-9.]+)\s*ms`. */
  datatype MixedMatch = MixedMatch(hop: Group, addr: Group, rtt1: Group, rtt2: Group)

  predicate MixedOk(s: string, m: MixedMatch) {
    GroupOf(s, m.hop, Digit) && GroupOf(s, m.addr, NonSpace)
    && GroupOf(s, m.rtt1, NumberChar) && GroupOf(s, m.rtt2, NumberChar)
  }

  function MatchMixed(s: string): (r: Option<MixedMatch>)
    ensures r.Some? ==> MixedOk(s, r.value)
  {
    var (hop, i) :- HopPrefix(s);
    var j :- Char(s, i, '*');
    var k :- Plus(s, j, Space);
    var a :- Plus(s, k, NonSpace);
    var (g1, e1) :- RttItem(s, a);
    var (g2, _) :- RttItem(s, e1);
    Some(MixedMatch(hop, Group(k, a), g1, g2))
  }

  /** traceroute.py:135, either three timeouts or an address, an optional
      parenthesised host name and one to three reply times:
      `^\s*(\d+)\s+(?:(\*)\s+(\*)\s+(\*)|(?:([^\s]+)(?:\s+\(([^\)]+)\))?\s+([0-9.]+)\s*ms(?:\s+([0-9.]+)\s*ms)?(?:\s+([0-9.]+)\s*ms)?))`. */
  datatype MainMatch =
    | TripleStar(hop: Group)
    | AddressLine(hop: Group, addr: Group, host: Option<Group>, rtts: seq<Group>)

  predicate MainOk(s: string, m: MainMatch) {
    GroupOf(s, m.hop, Digit)
    && (m.AddressLine? ==>
          GroupOf(s, m.addr, NonSpace)
          && (m.host.Some? ==> GroupOf(s, m.host.value, Except(')')))
          && 1 <= |m.rtts| <= 3
          && forall g :: g in m.rtts ==> GroupOf(s, g, NumberChar))
  }

  /** `\*\s+\*\s+\*` at `i`. */
  function ThreeStars(s: string, i: nat): (r: Option<nat>)
    requires i <= |s|
  {
    var a :- Char(s, i, '*');
    var b :- Plus(s, a, Space);
    var c :- Char(s, b, '*');
    var d :- Plus(s, c, Space);
    Char(s, d, '*')
  }

  /** `\s+\(([^\)]+)\)` at `i`: the host-name group and the index after ')'. */
  function HostPart(s: string, i: nat): (r: Option<(Group, nat)>)
    requires i <= |s|
    ensures r.Some? ==> GroupOf(s, r.value.0, Except(')')) && r.value.0.hi < r.value.1 <= |s|
  {
    var j :- Plus(s, i, Space);
    var k :- Char(s, j, '(');
    var l :- Plus(s, k, Except(')'));
    var e :- Char(s, l, ')');
    Some((Group(k, l), e))
  }

  /** One required reply time followed by up to two optional ones, each taken when present. */
  function RttRun(s: string, i: nat): (r: Option<seq<Group>>)
    requires i <= |s|
    ensures r.Some? ==> 1 <= |r.value| <= 3 && forall g :: g in r.value ==> GroupOf(s, g, NumberChar)
  {
    var (g1, e1) :- RttItem(s, i);
    match RttItem(s, e1)
    case None => Some([g1])
    case Some((g2, e2)) =>
      match RttItem(s, e2)
      case None => Some([g1, g2])
      case Some((g3, _)) => Some([g1, g2, g3])
  }

  function MatchMain(s: string): (r: Option<MainMatch>)
    ensures r.Some? ==> MainOk(s, r.value)
  {
    var (hop, i) :- HopPrefix(s);
    if ThreeStars(s, i).Some? then Some(TripleStar(hop))
    else
      var a :- Plus(s, i, NonSpace);
      var host := HostPart(s, a);
      var rtts :- RttRun(s, if host.Some? then host.value.1 else a);
      Some(AddressLine(hop, Group(i, a), if host.Some? then Some(host.value.0) else None, rtts))
  }

  /** traceroute.py:139, the fallback for numeric output:
      `^\s*(\d+)\s+([^\s]+)\s+([0-9.]+)\s*ms\s+([0-9.]+)\s*ms\s+([0-9.]+)\s*ms`. */
  datatype NumericMatch = NumericMatch(hop: Group, addr: Group, rtts: seq<Group>)

  predicate NumericOk(s: string, m: NumericMatch) {
    GroupOf(s, m.hop, Digit) && GroupOf(s, m.addr, NonSpace)
    && |m.rtts| == 3 && forall g :: g in m.rtts ==> GroupOf(s, g, NumberChar)
  }

  /** Three required reply times in a row. */
  function ThreeRtts(s: string, i: nat): (r: Option<seq<Group>>)
    requires i <= |s|
    ensures r.Some? ==> |r.value| == 3 && forall g :: g in r.value ==> GroupOf(s, g, NumberChar)
  {
    var (g1, e1) :- RttItem(s, i);
    var (g2, e2) :- RttItem(s, e1);
    var (g3, _) :- RttItem(s, e2);
    Some(Triple(s, g1, g2, g3, NumberChar))
  }

  /** Three groups of class `k`, in order. */
  function Triple(s: string, g1: Group, g2: Group, g3: Group, k: CharClass): (gs: seq<Group>)
    requires GroupOf(s, g1, k) && GroupOf(s, g2, k) && GroupOf(s, g3, k)
    ensures |gs| == 3 && gs[0] == g1 && gs[1] == g2 && gs[2] == g3
    ensures forall g :: g in gs ==> GroupOf(s, g, k)
  {
    [g1, g2, g3]
  }

  function MatchNumeric(s: string): (r: Option<NumericMatch>)
    ensures r.Some? ==> NumericOk(s, r.value)
  {
    var (hop, i) :- HopPrefix(s);
    var a :- Plus(s, i, NonSpace);
    var rtts :- ThreeRtts(s, a);
    Some(NumericMatch(hop, Group(i, a), rtts))
  }

  /** traceroute.py:175, the Windows `tracert` shapes:
      `^\s*(\d+)\s+(?:\*\s*\*\s*\*|(?:(\d+)\s*ms\s+(\d+)\s*ms\s+(\d+)\s*ms\s+([^\s]+)))`. */
  datatype WindowsMatch =
    | WindowsTimeout(hop: Group)
    | WindowsReply(hop: Group, rtts: seq<Group>, token: Group)

  predicate WindowsOk(s: string, m: WindowsMatch) {
    GroupOf(s, m.hop, Digit)
    && (m.WindowsReply? ==>
          GroupOf(s, m.token, NonSpace) && |m.rtts| == 3
          && forall g :: g in m.rtts ==> GroupOf(s, g, Digit))
  }

  /** `\*\s*\*\s*\*` at `i`. */
  function PackedStars(s: string, i: nat): (r: Option<nat>)
    requires i <= |s|
  {
    var a :- Char(s, i, '*');
    var b :- Char(s, Span(s, a, |s|, Space), '*');
    Char(s, Span(s, b, |s|, Space), '*')
  }

  function MatchWindows(s: string): (r: Option<WindowsMatch>)
    ensures r.Some? ==> WindowsOk(s, r.value)
  {
    var (hop, i) :- HopPrefix(s);
    if PackedStars(s, i).Some? then Some(WindowsTimeout(hop))
    else
      var (rtts, j) :- WindowsTimes(s, i);
      var t :- Plus(s, j, NonSpace);
      Some(WindowsReply(hop, rtts, Group(j, t)))
  }

  /** `(\d+)\s*ms\s+` three times: the three groups and the index after the last spaces. */
  function WindowsTimes(s: string, i: nat): (r: Option<(seq<Group>, nat)>)
    requires i <= |s|
    ensures r.Some? ==> (|r.value.0| == 3 && r.value.1 <= |s|
                         && forall g :: g in r.value.0 ==> GroupOf(s, g, Digit))
  {
    var (g1, j1) :- TimedThenSpace(s, i);
    var (g2, j2) :- TimedThenSpace(s, j1);
    var (g3, j3) :- TimedThenSpace(s, j2);
    Some((Triple(s, g1, g2, g3, Digit), j3))
  }

  /** `(\d+)\s*ms\s+` at `i`. */
  function TimedThenSpace(s: string, i: nat): (r: Option<(Group, nat)>)
    requires i <= |s|
    ensures r.Some? ==> GroupOf(s, r.value.0, Digit) && r.value.1 <= |s|
  {
    var (g, e) :- Timed(s, i, Digit);
    var j :- Plus(s, e, Space);
    Some((g, j))
  }

  // ---------------------------------------------------------------------
  // From a match to a Hop
  // ---------------------------------------------------------------------

  /** The value of a run of decimal digits: a hop number, or a whole number of milliseconds. */
  function WholeNumber(s: string, g: Group): nat
    requires GroupOf(s, g, Digit)
  {
    DigitsValue(s, g.lo, g.hi)
  }

  /** `float()` of every group, left to right; None as soon as one raises. */
  function Floats(s: string, gs: seq<Group>): (r: Option<seq<real>>)
    requires forall g :: g in gs ==> g.lo <= g.hi <= |s|
    ensures r.Some? ==> |r.value| == |gs|
    ensures r.Some? <==> forall g :: g in gs ==> ParseDecimal(s, g.lo, g.hi).Some?
    ensures r.Some? ==> forall k :: 0 <= k < |gs| ==> ParseDecimal(s, gs[k].lo, gs[k].hi) == Some(r.value[k])
  {
    if gs == [] then Some([])
    else
      var x :- ParseDecimal(s, gs[0].lo, gs[0].hi);
      var rest :- Floats(s, gs[1..]);
      Some([x] + rest)
  }

  /** What `_parse_hop` returns for the shapes tried after the first two: the
      Windows recogniser, whose timeout test looks for '*' anywhere in the line,
      and whose trailing token is an address only if it is an IP literal. */
  function ParseWindows(line: string): (r: Option<Hop>)
    ensures r.Some? ==> WellShaped(r.value)
    ensures MatchWindows(line).None? ==> r == None
  {
    match MatchWindows(line)
    case None => None
    case Some(w) =>
      var n := WholeNumber(line, w.hop);
      if Contains(line, "*") || w.WindowsTimeout? then Some(Hop(n, None, None, Some([])))
      else
        var token := Text(line, w.token);
        var rtts :- Floats(line, w.rtts);
        if IsIpLiteral(token) then Some(Hop(n, Some(token), None, Some(rtts)))
        else Some(Hop(n, None, Some(token), Some(rtts)))
  }

  /** The shape every parsed hop has: a list of at most three reply times that is
      empty exactly for a full timeout, a non-empty address when there is one, and
      a host name without an address only for a Windows reply with three times. */
  predicate WellShaped(h: Hop) {
    && h.rttMs.Some?
    && |h.rttMs.value| <= 3
    && (h.rttMs.value == [] <==> h.ip.None? && h.hostname.None?)
    && (h.ip.Some? ==> h.ip.value != "")
    && (h.ip.None? && h.hostname.Some? ==> |h.rttMs.value| == 3)
  }

  /** `Traceroute._parse_hop`: blank and header lines give None; otherwise the
      first shape that matches decides, and a reply time that `float()` rejects
      makes the whole line give None. */
  function ParseHop(line: string): (r: Option<Hop>)
    ensures r.Some? ==> WellShaped(r.value)
    ensures IsBlank(line) || Contains(line, "traceroute to") ==> r == None
  {
    if IsBlank(line) || Contains(line, "traceroute to") then None
    else match MatchMixed(line)
      case Some(m) => MixedHop(line, m)
      case None =>
        match MatchMain(line)
        case Some(m) => MainHop(line, m)
        case None =>
          match MatchNumeric(line)
          case Some(b) => NumericHop(line, b)
          case None => ParseWindows(line)
  }

  /** The hop of a mixed-shape line: the address and its two reply times. */
  function MixedHop(line: string, m: MixedMatch): (r: Option<Hop>)
    requires MixedOk(line, m)
    ensures r.Some? ==> WellShaped(r.value) && |r.value.rttMs.value| == 2 && r.value.hostname == None
  {
    var rtts :- Floats(line, [m.rtt1, m.rtt2]);
    Some(Hop(WholeNumber(line, m.hop), Some(Text(line, m.addr)), None, Some(rtts)))
  }

  /** The hop of a main-pattern line: a full timeout, or the address, its host name if any, and its reply times. */
  function MainHop(line: string, m: MainMatch): (r: Option<Hop>)
    requires MainOk(line, m)
    ensures r.Some? ==> WellShaped(r.value)
  {
    match m
    case TripleStar(g) => Some(Hop(WholeNumber(line, g), None, None, Some([])))
    case AddressLine(g, a, host, gs) =>
      var rtts :- Floats(line, gs);
      Some(Hop(WholeNumber(line, g), Some(Text(line, a)),
               if host.Some? then Some(Text(line, host.value)) else None, Some(rtts)))
  }

  /** The hop of a numeric-fallback line: the address and its three reply times. */
  function NumericHop(line: string, b: NumericMatch): (r: Option<Hop>)
    requires NumericOk(line, b)
    ensures r.Some? ==> WellShaped(r.value)
  {
    var rtts :- Floats(line, b.rtts);
    Some(Hop(WholeNumber(line, b.hop), Some(Text(line, b.addr)), None, Some(rtts)))
  }

  // ---------------------------------------------------------------------
  // Properties of the parser
  // ---------------------------------------------------------------------

  /** The mixed shape is tried first: when it matches, the hop has the matched
      address, no host name and exactly the two reply times, in order. */
  lemma MixedShapeFirst(line: string)
    requires !IsBlank(line) && !Contains(line, "traceroute to")
    requires MatchMixed(line).Some?
    ensures var m := MatchMixed(line).value;
      var r1 := ParseDecimal(line, m.rtt1.lo, m.rtt1.hi);
      var r2 := ParseDecimal(line, m.rtt2.lo, m.rtt2.hi);
      ParseHop(line) == if r1.Some? && r2.Some?
        then Some(Hop(WholeNumber(line, m.hop), Some(Text(line, m.addr)), None, Some([r1.value, r2.value])))
        else None
  {
    var m := MatchMixed(line).value;
    assert ParseHop(line) == MixedHop(line, m);
    FloatsOfPair(line, m.rtt1, m.rtt2);
  }

  /** `float()` of two groups: both numbers, or None when either raises. */
  lemma FloatsOfPair(s: string, g1: Group, g2: Group)
    requires g1.lo <= g1.hi <= |s| && g2.lo <= g2.hi <= |s|
    ensures var r1 := ParseDecimal(s, g1.lo, g1.hi);
      var r2 := ParseDecimal(s, g2.lo, g2.hi);
      Floats(s, [g1, g2]) == if r1.Some? && r2.Some? then Some([r1.value, r2.value]) else None
  {
    var gs := [g1, g2];
    var f := Floats(s, gs);
    assert gs[0] == g1 && gs[1] == g2;
    if f.Some? {
      assert f.value == [f.value[0], f.value[1]];
    }
  }

  /** Every line the numeric fallback accepts is accepted by the pattern tried
      before it (its address is not followed by '(' and its first reply time is
      the main pattern's first), so the fallback can never be reached. */
  lemma NumericImpliesMain(s: string)
    ensures MatchNumeric(s).Some? ==> MatchMain(s).Some?
  {
    if MatchNumeric(s).Some? {
      var (hop, i) := HopPrefix(s).value;
      var a := Plus(s, i, NonSpace).value;
      assert ThreeRtts(s, a).Some?;
      ReplyTimeIsNotHost(s, a);
    }
  }

  /** Where a reply time follows, no parenthesised host name can, and the run
      of reply times the main pattern takes is there. */
  lemma ReplyTimeIsNotHost(s: string, a: nat)
    requires a <= |s| && RttItem(s, a).Some?
    ensures HostPart(s, a).None? && RttRun(s, a).Some?
  {
    var j := Plus(s, a, Space).value;
    assert InClass(s[j], NumberChar);
  }

  /** Hence, once the first two patterns fail, the line is read as a Windows line. */
  lemma FallbackNeverFires(line: string)
    requires !IsBlank(line) && !Contains(line, "traceroute to")
    requires MatchMixed(line).None? && MatchMain(line).None?
    ensures ParseHop(line) == ParseWindows(line)
  {
    NumericImpliesMain(line);
  }

  /** A main-pattern address line gives its address, its host name when present
      and its one to three reply times in left-to-right order. */
  lemma AddressLineShape(line: string)
    requires !IsBlank(line) && !Contains(line, "traceroute to")
    requires MatchMixed(line).None? && MatchMain(line).Some? && MatchMain(line).value.AddressLine?
    ensures var m := MatchMain(line).value;
      var f := Floats(line, m.rtts);
      ParseHop(line) == if f.None? then None
        else Some(Hop(WholeNumber(line, m.hop), Some(Text(line, m.addr)),
                      if m.host.Some? then Some(Text(line, m.host.value)) else None, f))
  {
  }

  /** Any line the main pattern reads as three stars gives its hop number with no
      address, no host name and an empty list of reply times. */
  lemma TripleStarLineShape(line: string)
    requires !IsBlank(line) && !Contains(line, "traceroute to")
    requires MatchMixed(line).None? && MatchMain(line).Some? && MatchMain(line).value.TripleStar?
    ensures ParseHop(line) == Some(Hop(WholeNumber(line, MatchMain(line).value.hop), None, None, Some([])))
  {
  }

  /** A Windows line that holds a '*' anywhere, or that the recogniser reads as a
      timeout, gives its hop number with an empty list of reply times; when neither
      earlier shape matches, that is what `_parse_hop` returns for the line. */
  lemma WindowsTimeoutShape(line: string)
    requires MatchWindows(line).Some?
    requires Contains(line, "*") || MatchWindows(line).value.WindowsTimeout?
    ensures var empty := Some(Hop(WholeNumber(line, MatchWindows(line).value.hop), None, None, Some([])));
      && ParseWindows(line) == empty
      && (!IsBlank(line) && !Contains(line, "traceroute to") && MatchMixed(line).None? && MatchMain(line).None? ==>
            ParseHop(line) == empty)
  {
    if !IsBlank(line) && !Contains(line, "traceroute to") && MatchMixed(line).None? && MatchMain(line).None? {
      FallbackNeverFires(line);
    }
  }

  /** A Windows reply line with no '*' and an IP-literal token gives that address;
      with any other token it gives the token as host name and no address. */
  lemma WindowsTokenClassified(line: string)
    requires MatchWindows(line).Some? && MatchWindows(line).value.WindowsReply?
    requires !Contains(line, "*")
    ensures var w := MatchWindows(line).value;
      var token := Text(line, w.token);
      var f := Floats(line, w.rtts);
      f.Some?
      && ParseWindows(line) == Some(Hop(WholeNumber(line, w.hop),
           if IsIpLiteral(token) then Some(token) else None,
           if IsIpLiteral(token) then None else Some(token), f))
  {
    var w := MatchWindows(line).value;
    forall g | g in w.rtts ensures ParseDecimal(line, g.lo, g.hi).Some? {
      DigitsParse(line, g);
    }
  }

  /** A full-timeout line from the platform's `traceroute`. */
  const TimeoutLine := " 5  * * *"

  lemma TimeoutLineExample()
    ensures ParseHop(TimeoutLine) == Some(Hop(5, None, None, Some([])))
  {
    var s := TimeoutLine;
    assert Span(s, 0, 9, Space) == 1;
    assert !IsBlank(s) && !Contains(s, "traceroute to");
    TimeoutLineMatches();
    assert WholeNumber(s, Group(1, 2)) == 5;
    assert ParseHop(s) == MainHop(s, TripleStar(Group(1, 2)));
  }

  /** How the recognisers read the full-timeout line. */
  lemma TimeoutLineMatches()
    ensures MatchMixed(TimeoutLine) == None
    ensures MatchMain(TimeoutLine) == Some(TripleStar(Group(1, 2)))
  {
    var s := TimeoutLine;
    assert Span(s, 0, 9, Space) == 1;
    assert Span(s, 1, 9, Digit) == 2;
    assert Span(s, 2, 9, Space) == 4;
    assert HopPrefix(s) == Some((Group(1, 2), 4));
    assert Char(s, 4, '*') == Some(5);
    assert Span(s, 5, 9, Space) == 6;
    assert Plus(s, 5, Space) == Some(6);
    assert Span(s, 6, 9, NonSpace) == 7;
    assert Plus(s, 6, NonSpace) == Some(7);
    assert Span(s, 7, 9, Space) == 8;
    assert Plus(s, 7, Space) == Some(8);
    assert Span(s, 8, 9, NumberChar) == 8;
    assert MatchMixed(s) == None;
    assert ThreeStars(s, 4).Some?;
  }

  /** A run of ASCII digits always converts. */
  lemma DigitsParse(s: string, g: Group)
    requires GroupOf(s, g, Digit)
    ensures ParseDecimal(s, g.lo, g.hi) == Some(WholeNumber(s, g) as real)
  {
    assert !(s[g.lo] == '-' || s[g.lo] == '+');
  }

  // ---------------------------------------------------------------------
  // Which lines each recogniser accepts
  // ---------------------------------------------------------------------

  /** `s[i..j]` is a longest run of class `k`: every character in it is of
      class `k`, and the character after it, if there is one, is not. */
  predicate MaxRun(s: string, i: nat, j: nat, k: CharClass) {
    && i <= j <= |s|
    && (forall m :: i <= m < j ==> InClass(s[m], k))
    && (j == |s| || !InClass(s[j], k))
  }

  /** The scanner's run of class `k` from `i` is the longest run there. */
  lemma {:induction false} SpanOfRun(s: string, i: nat, j: nat, k: CharClass)
    requires MaxRun(s, i, j, k)
    ensures Span(s, i, |s|, k) == j
    decreases j - i
  {
    if i < j {
      SpanOfRun(s, i + 1, j, k);
    }
  }

  /** `k+` at `i` takes a non-empty longest run. */
  lemma PlusOfRun(s: string, i: nat, j: nat, k: CharClass)
    requires i < j && MaxRun(s, i, j, k)
    ensures Plus(s, i, k) == Some(j)
  {
    SpanOfRun(s, i, j, k);
  }

  /** `^\s*(\d+)\s+` reads the hop number `hop` and stops at `e`. */
  predicate HopAt(s: string, hop: Group, e: nat) {
    && MaxRun(s, 0, hop.lo, Space)
    && hop.lo < hop.hi && MaxRun(s, hop.lo, hop.hi, Digit)
    && hop.hi < e && MaxRun(s, hop.hi, e, Space)
  }

  lemma HopPrefixAt(s: string, hop: Group, e: nat)
    requires HopAt(s, hop, e)
    ensures HopPrefix(s) == Some((hop, e))
  {
    SpanOfRun(s, 0, hop.lo, Space);
    SpanOfRun(s, hop.lo, hop.hi, Digit);
    SpanOfRun(s, hop.hi, e, Space);
  }

  /** `\s+([0-9.]+)\s*ms` from `i` reads the reply time `g` and stops at `e`. */
  predicate RttAt(s: string, i: nat, g: Group, e: nat) {
    && i < g.lo && MaxRun(s, i, g.lo, Space)
    && g.lo < g.hi && MaxRun(s, g.lo, g.hi, NumberChar)
    && g.hi + 2 <= e <= |s| && MaxRun(s, g.hi, e - 2, Space)
    && s[e - 2] == 'm' && s[e - 1] == 's'
  }

  lemma RttItemAt(s: string, i: nat, g: Group, e: nat)
    requires RttAt(s, i, g, e)
    ensures RttItem(s, i) == Some((g, e))
  {
    SpanOfRun(s, i, g.lo, Space);
    SpanOfRun(s, g.lo, g.hi, NumberChar);
    SpanOfRun(s, g.hi, e - 2, Space);
  }

  /** No further `\s+([0-9.]+)` follows `e`: after the spaces there the line
      ends, or a character that cannot start a reply time comes. */
  predicate NoRttAfter(s: string, e: nat)
    requires e <= |s|
  {
    var j := Span(s, e, |s|, Space);
    j == |s| || !InClass(s[j], NumberChar)
  }

  lemma NoRttItemAt(s: string, e: nat)
    requires e <= |s| && NoRttAfter(s, e)
    ensures RttItem(s, e).None?
  {
  }

  /** The values the mixed pattern's atoms take in turn. */
  predicate MixedSteps(s: string, hop: Group, p: nat, addr: Group, r1: Group, e1: nat, r2: Group, e2: nat) {
    && HopPrefix(s) == Some((hop, p)) && p < |s| && s[p] == '*'
    && Plus(s, p + 1, Space) == Some(addr.lo) && Plus(s, addr.lo, NonSpace) == Some(addr.hi)
    && RttItem(s, addr.hi) == Some((r1, e1)) && RttItem(s, e1) == Some((r2, e2))
  }

  lemma MixedChain(s: string, hop: Group, p: nat, addr: Group, r1: Group, e1: nat, r2: Group, e2: nat)
    requires MixedSteps(s, hop, p, addr, r1, e1, r2, e2)
    ensures MatchMixed(s) == Some(MixedMatch(hop, addr, r1, r2))
  {
    assert Char(s, p, '*') == Some(p + 1);
  }

  /** `^\s*(\d+)\s+\*\s+([^\s]+)`: the hop number, a '*' at `p` and the address. */
  predicate StarAddressAt(s: string, hop: Group, p: nat, addr: Group) {
    && HopAt(s, hop, p) && p < |s| && s[p] == '*'
    && p + 1 < addr.lo && MaxRun(s, p + 1, addr.lo, Space)
    && addr.lo < addr.hi && MaxRun(s, addr.lo, addr.hi, NonSpace)
  }

  lemma StarAddressSteps(s: string, hop: Group, p: nat, addr: Group)
    requires StarAddressAt(s, hop, p, addr)
    ensures HopPrefix(s) == Some((hop, p))
    ensures Plus(s, p + 1, Space) == Some(addr.lo) && Plus(s, addr.lo, NonSpace) == Some(addr.hi)
  {
    HopPrefixAt(s, hop, p);
    PlusOfRun(s, p + 1, addr.lo, Space);
    PlusOfRun(s, addr.lo, addr.hi, NonSpace);
  }

  /** A mixed line: the hop number, a '*', an address and two reply times,
      each a longest run. */
  predicate MixedLineAt(s: string, hop: Group, p: nat, addr: Group, r1: Group, e1: nat, r2: Group, e2: nat) {
    StarAddressAt(s, hop, p, addr) && RttAt(s, addr.hi, r1, e1) && RttAt(s, e1, r2, e2)
  }

  /** Every mixed line is matched, with exactly its groups. */
  lemma MixedLineMatches(s: string, hop: Group, p: nat, addr: Group, r1: Group, e1: nat, r2: Group, e2: nat)
    requires MixedLineAt(s, hop, p, addr, r1, e1, r2, e2)
    ensures MatchMixed(s) == Some(MixedMatch(hop, addr, r1, r2))
  {
    StarAddressSteps(s, hop, p, addr);
    RttItemAt(s, addr.hi, r1, e1);
    RttItemAt(s, e1, r2, e2);
    MixedChain(s, hop, p, addr, r1, e1, r2, e2);
  }

  /** `\s+([0-9.]+)\s*ms` three times in a row from `i`. */
  predicate ThreeRttsAt(s: string, i: nat, rtts: seq<Group>, ends: seq<nat>) {
    && |rtts| == 3 && |ends| == 3
    && RttAt(s, i, rtts[0], ends[0]) && RttAt(s, ends[0], rtts[1], ends[1])
    && RttAt(s, ends[1], rtts[2], ends[2])
  }

  /** A short list is the display of its elements. */
  lemma Elements<T>(gs: seq<T>)
    ensures |gs| == 1 ==> gs == [gs[0]]
    ensures |gs| == 2 ==> gs == [gs[0], gs[1]]
    ensures |gs| == 3 ==> gs == [gs[0], gs[1], gs[2]]
  {
  }

  /** The first `n` reply times the scanner reads from `i` are `rtts`, ending at `ends`. */
  predicate RttItems(s: string, i: nat, rtts: seq<Group>, ends: seq<nat>, n: nat) {
    && n <= |rtts| == |ends| && i <= |s|
    && (n >= 1 ==> RttItem(s, i) == Some((rtts[0], ends[0])))
    && (n >= 2 ==> ends[0] <= |s| && RttItem(s, ends[0]) == Some((rtts[1], ends[1])))
    && (n >= 3 ==> ends[1] <= |s| && RttItem(s, ends[1]) == Some((rtts[2], ends[2])))
  }

  lemma RttItemsAt(s: string, i: nat, rtts: seq<Group>, ends: seq<nat>, n: nat)
    requires n <= |rtts| == |ends|
    requires n >= 1 ==> RttAt(s, i, rtts[0], ends[0])
    requires n >= 2 ==> RttAt(s, ends[0], rtts[1], ends[1])
    requires n >= 3 ==> RttAt(s, ends[1], rtts[2], ends[2])
    requires i <= |s|
    ensures RttItems(s, i, rtts, ends, n)
  {
    if n >= 1 {
      RttItemAt(s, i, rtts[0], ends[0]);
    }
    if n >= 2 {
      RttItemAt(s, ends[0], rtts[1], ends[1]);
    }
    if n >= 3 {
      RttItemAt(s, ends[1], rtts[2], ends[2]);
    }
  }

  lemma ThreeRttsChain(s: string, i: nat, g1: Group, e1: nat, g2: Group, e2: nat, g3: Group, e3: nat)
    requires i <= |s| && RttItem(s, i) == Some((g1, e1))
    requires e1 <= |s| && RttItem(s, e1) == Some((g2, e2))
    requires e2 <= |s| && RttItem(s, e2) == Some((g3, e3))
    ensures ThreeRtts(s, i) == Some([g1, g2, g3])
  {
  }

  lemma ThreeRttsOf(s: string, i: nat, rtts: seq<Group>, ends: seq<nat>)
    requires ThreeRttsAt(s, i, rtts, ends)
    ensures ThreeRtts(s, i) == Some(rtts)
  {
    RttItemsAt(s, i, rtts, ends, 3);
    ThreeRttsChain(s, i, rtts[0], ends[0], rtts[1], ends[1], rtts[2], ends[2]);
    Elements(rtts);
  }

  /** `^\s*(\d+)\s+([^\s]+)`: the hop number and the address after it. */
  predicate AddressAt(s: string, hop: Group, addr: Group) {
    HopAt(s, hop, addr.lo) && addr.lo < addr.hi && MaxRun(s, addr.lo, addr.hi, NonSpace)
  }

  lemma AddressSteps(s: string, hop: Group, addr: Group)
    requires AddressAt(s, hop, addr)
    ensures HopPrefix(s) == Some((hop, addr.lo)) && Plus(s, addr.lo, NonSpace) == Some(addr.hi)
  {
    HopPrefixAt(s, hop, addr.lo);
    PlusOfRun(s, addr.lo, addr.hi, NonSpace);
  }

  /** A `-n` line: the hop number, the address and three reply times. */
  predicate NumericLineAt(s: string, hop: Group, addr: Group, rtts: seq<Group>, ends: seq<nat>) {
    AddressAt(s, hop, addr) && ThreeRttsAt(s, addr.hi, rtts, ends)
  }

  /** Every `-n` line with three reply times is matched by the numeric fallback. */
  lemma NumericLineMatches(s: string, hop: Group, addr: Group, rtts: seq<Group>, ends: seq<nat>)
    requires NumericLineAt(s, hop, addr, rtts, ends)
    ensures MatchNumeric(s) == Some(NumericMatch(hop, addr, rtts))
  {
    AddressSteps(s, hop, addr);
    ThreeRttsOf(s, addr.hi, rtts, ends);
  }

  /** `\s+\(([^\)]+)\)` from `i`: the host name `host`, ending at `e` after ')'. */
  predicate HostAt(s: string, i: nat, host: Group, e: nat) {
    && i + 1 < host.lo < host.hi < |s|
    && MaxRun(s, i, host.lo - 1, Space) && s[host.lo - 1] == '('
    && MaxRun(s, host.lo, host.hi, Except(')'))
    && e == host.hi + 1
  }

  lemma HostPartAt(s: string, i: nat, host: Group, e: nat)
    requires HostAt(s, i, host, e)
    ensures HostPart(s, i) == Some((host, e))
  {
    PlusOfRun(s, i, host.lo - 1, Space);
    PlusOfRun(s, host.lo, host.hi, Except(')'));
  }

  /** One to three reply times from `i`, each taken while one is there. */
  predicate RttsAt(s: string, i: nat, rtts: seq<Group>, ends: seq<nat>) {
    && 1 <= |rtts| <= 3 && |ends| == |rtts|
    && RttAt(s, i, rtts[0], ends[0])
    && (forall k :: 0 < k < |rtts| ==> RttAt(s, ends[k - 1], rtts[k], ends[k]))
    && (|rtts| < 3 ==> NoRttAfter(s, ends[|rtts| - 1]))
  }

  lemma RttRunChain(s: string, i: nat, rtts: seq<Group>, ends: seq<nat>)
    requires 1 <= |rtts| <= 3 && RttItems(s, i, rtts, ends, |rtts|)
    requires |rtts| < 3 ==> ends[|rtts| - 1] <= |s| && RttItem(s, ends[|rtts| - 1]).None?
    ensures RttRun(s, i) == Some(rtts)
  {
    Elements(rtts);
    if |rtts| == 1 {
      assert RttRun(s, i) == Some([rtts[0]]);
    } else if |rtts| == 2 {
      assert RttRun(s, i) == Some([rtts[0], rtts[1]]);
    } else {
      assert RttRun(s, i) == Some([rtts[0], rtts[1], rtts[2]]);
    }
  }

  lemma RttRunAt(s: string, i: nat, rtts: seq<Group>, ends: seq<nat>)
    requires i <= |s| && RttsAt(s, i, rtts, ends)
    ensures RttRun(s, i) == Some(rtts)
  {
    assert |rtts| >= 2 ==> RttAt(s, ends[0], rtts[1], ends[1]);
    assert |rtts| >= 3 ==> RttAt(s, ends[1], rtts[2], ends[2]);
    RttItemsAt(s, i, rtts, ends, |rtts|);
    if |rtts| < 3 {
      NoRttItemAt(s, ends[|rtts| - 1]);
    }
    RttRunChain(s, i, rtts, ends);
  }

  /** An address line of the main pattern: the hop number, an address that does
      not start with '*', a host name in parentheses when `host` is given, and
      one to three reply times starting at `c`. */
  predicate AddressLineAt(s: string, hop: Group, addr: Group, host: Option<Group>, c: nat, rtts: seq<Group>, ends: seq<nat>) {
    && AddressAt(s, hop, addr) && s[addr.lo] != '*'
    && (host.Some? ==> HostAt(s, addr.hi, host.value, c))
    && (host.None? ==> c == addr.hi)
    && RttsAt(s, c, rtts, ends)
  }

  /** The values the main pattern's atoms take on an address line. */
  predicate AddressLineSteps(s: string, hop: Group, addr: Group, host: Option<Group>, c: nat, rtts: seq<Group>) {
    && HopPrefix(s) == Some((hop, addr.lo)) && addr.lo < |s| && s[addr.lo] != '*'
    && Plus(s, addr.lo, NonSpace) == Some(addr.hi)
    && HostPart(s, addr.hi) == (if host.Some? then Some((host.value, c)) else None)
    && (host.None? ==> c == addr.hi)
    && c <= |s| && RttRun(s, c) == Some(rtts)
  }

  /** A reply time right after the address leaves no room for a "(host)". */
  lemma NoHostBeforeRtt(s: string, i: nat, g: Group, e: nat)
    requires RttAt(s, i, g, e)
    ensures HostPart(s, i) == None
  {
    PlusOfRun(s, i, g.lo, Space);
  }

  lemma AddressLineStepsAt(s: string, hop: Group, addr: Group, host: Option<Group>, c: nat, rtts: seq<Group>, ends: seq<nat>)
    requires AddressLineAt(s, hop, addr, host, c, rtts, ends)
    ensures AddressLineSteps(s, hop, addr, host, c, rtts)
  {
    AddressSteps(s, hop, addr);
    if host.Some? {
      HostPartAt(s, addr.hi, host.value, c);
    } else {
      NoHostBeforeRtt(s, addr.hi, rtts[0], ends[0]);
    }
    RttRunAt(s, c, rtts, ends);
  }

  lemma AddressLineChain(s: string, hop: Group, addr: Group, host: Option<Group>, c: nat, rtts: seq<Group>)
    requires AddressLineSteps(s, hop, addr, host, c, rtts)
    ensures MatchMixed(s) == None
    ensures MatchMain(s) == Some(AddressLine(hop, addr, host, rtts))
  {
    assert Char(s, addr.lo, '*') == None;
    assert ThreeStars(s, addr.lo) == None;
  }

  /** Every address line is matched by the main pattern, and not by the mixed one. */
  lemma AddressLineMatches(s: string, hop: Group, addr: Group, host: Option<Group>, c: nat, rtts: seq<Group>, ends: seq<nat>)
    requires AddressLineAt(s, hop, addr, host, c, rtts, ends)
    ensures MatchMixed(s) == None
    ensures MatchMain(s) == Some(AddressLine(hop, addr, host, rtts))
  {
    AddressLineStepsAt(s, hop, addr, host, c, rtts, ends);
    AddressLineChain(s, hop, addr, host, c, rtts);
  }

  /** `\*\s+\*\s+\*` at `p`, with the second and third stars at `q1` and `q2`. */
  predicate StarsAt(s: string, p: nat, q1: nat, q2: nat) {
    && p < |s| && s[p] == '*'
    && p + 1 < q1 && MaxRun(s, p + 1, q1, Space) && q1 < |s| && s[q1] == '*'
    && q1 + 1 < q2 && MaxRun(s, q1 + 1, q2, Space) && q2 < |s| && s[q2] == '*'
  }

  /** The values the mixed and main patterns' atoms take on a line of three stars:
      the mixed pattern reads the second star as its address and then finds a
      '*' where a reply time must start. */
  predicate StarSteps(s: string, hop: Group, p: nat, q1: nat, q2: nat) {
    && HopPrefix(s) == Some((hop, p))
    && p < q1 < q2 < |s| && s[p] == '*' && s[q1] == '*' && s[q2] == '*'
    && Plus(s, p + 1, Space) == Some(q1) && Plus(s, q1, NonSpace) == Some(q1 + 1)
    && Plus(s, q1 + 1, Space) == Some(q2)
  }

  lemma StarStepsAt(s: string, hop: Group, p: nat, q1: nat, q2: nat)
    requires HopAt(s, hop, p) && StarsAt(s, p, q1, q2)
    ensures StarSteps(s, hop, p, q1, q2)
  {
    HopPrefixAt(s, hop, p);
    PlusOfRun(s, p + 1, q1, Space);
    PlusOfRun(s, q1 + 1, q2, Space);
    SecondStarIsAddress(s, p, q1, q2);
  }

  /** The second star, followed by spaces, is a run of non-space characters on its own. */
  lemma SecondStarIsAddress(s: string, p: nat, q1: nat, q2: nat)
    requires StarsAt(s, p, q1, q2)
    ensures Plus(s, q1, NonSpace) == Some(q1 + 1)
  {
    assert InClass(s[q1 + 1], Space);
    PlusOfRun(s, q1, q1 + 1, NonSpace);
  }

  lemma StarChain(s: string, hop: Group, p: nat, q1: nat, q2: nat)
    requires StarSteps(s, hop, p, q1, q2)
    ensures MatchMixed(s) == None
    ensures MatchMain(s) == Some(TripleStar(hop))
  {
    assert Char(s, p, '*') == Some(p + 1);
    assert Plus(s, q2, NumberChar) == None;
    assert RttItem(s, q1 + 1) == None;
    assert ThreeStars(s, p) == Some(q2 + 1);
  }

  /** Every line of three stars is matched by the main pattern's first
      alternative, and not by the mixed one. */
  lemma TripleStarLineMatches(s: string, hop: Group, p: nat, q1: nat, q2: nat)
    requires HopAt(s, hop, p) && StarsAt(s, p, q1, q2)
    ensures MatchMixed(s) == None
    ensures MatchMain(s) == Some(TripleStar(hop))
  {
    StarStepsAt(s, hop, p, q1, q2);
    StarChain(s, hop, p, q1, q2);
  }

  /** `\*\s*\*\s*\*` at `p`, with the second and third stars at `q1` and `q2`. */
  predicate PackedStarsAt(s: string, p: nat, q1: nat, q2: nat) {
    && p < |s| && s[p] == '*'
    && MaxRun(s, p + 1, q1, Space) && q1 < |s| && s[q1] == '*'
    && MaxRun(s, q1 + 1, q2, Space) && q2 < |s| && s[q2] == '*'
  }

  lemma PackedStarsOf(s: string, p: nat, q1: nat, q2: nat)
    requires PackedStarsAt(s, p, q1, q2)
    ensures PackedStars(s, p) == Some(q2 + 1)
  {
    SpanOfRun(s, p + 1, q1, Space);
    SpanOfRun(s, q1 + 1, q2, Space);
  }

  /** Every `tracert` line of three stars is matched as a timeout. */
  lemma WindowsStarsMatch(s: string, hop: Group, p: nat, q1: nat, q2: nat)
    requires HopAt(s, hop, p) && PackedStarsAt(s, p, q1, q2)
    ensures MatchWindows(s) == Some(WindowsTimeout(hop))
  {
    HopPrefixAt(s, hop, p);
    PackedStarsOf(s, p, q1, q2);
  }

  /** `(\d+)\s*ms\s+` reads the time `g`, with "ms" at `m`, and stops at `e`. */
  predicate WindowsTimeAt(s: string, g: Group, m: nat, e: nat) {
    && g.lo < g.hi && MaxRun(s, g.lo, g.hi, Digit)
    && g.hi <= m && MaxRun(s, g.hi, m, Space)
    && m + 2 < e && MaxRun(s, m + 2, e, Space) && s[m] == 'm' && s[m + 1] == 's'
  }

  lemma TimedThenSpaceAt(s: string, g: Group, m: nat, e: nat)
    requires WindowsTimeAt(s, g, m, e)
    ensures TimedThenSpace(s, g.lo) == Some((g, e))
  {
    PlusOfRun(s, g.lo, g.hi, Digit);
    SpanOfRun(s, g.hi, m, Space);
    PlusOfRun(s, m + 2, e, Space);
  }

  /** Three whole-millisecond times in a row, each followed by spaces. */
  predicate WindowsTimesAt(s: string, rtts: seq<Group>, ms: seq<nat>, ends: seq<nat>) {
    && |rtts| == 3 && |ms| == 3 && |ends| == 3
    && WindowsTimeAt(s, rtts[0], ms[0], ends[0])
    && rtts[1].lo == ends[0] && WindowsTimeAt(s, rtts[1], ms[1], ends[1])
    && rtts[2].lo == ends[1] && WindowsTimeAt(s, rtts[2], ms[2], ends[2])
  }

  lemma WindowsTimesChain(s: string, rtts: seq<Group>, ends: seq<nat>)
    requires |rtts| == 3 && |ends| == 3 && rtts[0].lo <= |s|
    requires TimedThenSpace(s, rtts[0].lo) == Some((rtts[0], ends[0]))
    requires rtts[1].lo == ends[0] && TimedThenSpace(s, ends[0]) == Some((rtts[1], ends[1]))
    requires rtts[2].lo == ends[1] && TimedThenSpace(s, ends[1]) == Some((rtts[2], ends[2]))
    ensures WindowsTimes(s, rtts[0].lo) == Some((rtts, ends[2]))
  {
    Elements(rtts);
  }

  lemma WindowsTimesOf(s: string, rtts: seq<Group>, ms: seq<nat>, ends: seq<nat>)
    requires WindowsTimesAt(s, rtts, ms, ends)
    ensures WindowsTimes(s, rtts[0].lo) == Some((rtts, ends[2]))
  {
    TimedThenSpaceAt(s, rtts[0], ms[0], ends[0]);
    TimedThenSpaceAt(s, rtts[1], ms[1], ends[1]);
    TimedThenSpaceAt(s, rtts[2], ms[2], ends[2]);
    WindowsTimesChain(s, rtts, ends);
  }

  /** A `tracert` reply line: the hop number, three times and the trailing token. */
  predicate WindowsReplyAt(s: string, hop: Group, rtts: seq<Group>, ms: seq<nat>, ends: seq<nat>, token: Group) {
    && |rtts| == 3 && |ends| == 3
    && HopAt(s, hop, rtts[0].lo) && WindowsTimesAt(s, rtts, ms, ends)
    && token.lo == ends[2] && token.lo < token.hi && MaxRun(s, token.lo, token.hi, NonSpace)
  }

  /** Every `tracert` reply line is matched, with exactly its groups. */
  lemma WindowsReplyMatches(s: string, hop: Group, rtts: seq<Group>, ms: seq<nat>, ends: seq<nat>, token: Group)
    requires WindowsReplyAt(s, hop, rtts, ms, ends, token)
    ensures MatchWindows(s) == Some(WindowsReply(hop, rtts, token))
  {
    HopPrefixAt(s, hop, rtts[0].lo);
    WindowsTimesOf(s, rtts, ms, ends);
    PlusOfRun(s, token.lo, token.hi, NonSpace);
    assert PackedStars(s, rtts[0].lo) == None;
  }

  // ---------------------------------------------------------------------
  // What `_parse_hop` returns for each line shape
  // ---------------------------------------------------------------------

  /** A line that starts, after spaces, with a hop number is not blank. */
  lemma HopLineNotBlank(s: string, hop: Group, e: nat)
    requires HopAt(s, hop, e)
    ensures !IsBlank(s)
  {
    SpanOfRun(s, 0, hop.lo, Space);
  }

  /** A mixed line gives its address, no host name and its two reply times;
      a reply time `float()` rejects makes the line give None. */
  lemma MixedLineParses(s: string, hop: Group, p: nat, addr: Group, r1: Group, e1: nat, r2: Group, e2: nat)
    requires MixedLineAt(s, hop, p, addr, r1, e1, r2, e2) && !Contains(s, "traceroute to")
    ensures var x1 := ParseDecimal(s, r1.lo, r1.hi);
      var x2 := ParseDecimal(s, r2.lo, r2.hi);
      ParseHop(s) == if x1.Some? && x2.Some?
        then Some(Hop(WholeNumber(s, hop), Some(s[addr.lo..addr.hi]), None, Some([x1.value, x2.value])))
        else None
  {
    HopLineNotBlank(s, hop, p);
    MixedLineMatches(s, hop, p, addr, r1, e1, r2, e2);
    MixedShapeFirst(s);
  }

  /** `float()` of every group succeeds exactly when each group parses, and then
      gives each group's number in order. */
  lemma FloatsByIndex(s: string, gs: seq<Group>)
    requires forall k :: 0 <= k < |gs| ==> gs[k].lo <= gs[k].hi <= |s|
    ensures Floats(s, gs).Some? <==> forall k :: 0 <= k < |gs| ==> ParseDecimal(s, gs[k].lo, gs[k].hi).Some?
    ensures Floats(s, gs).Some? ==>
      && |Floats(s, gs).value| == |gs|
      && forall k :: 0 <= k < |gs| ==> ParseDecimal(s, gs[k].lo, gs[k].hi) == Some(Floats(s, gs).value[k])
  {
    if forall k :: 0 <= k < |gs| ==> ParseDecimal(s, gs[k].lo, gs[k].hi).Some? {
      forall g | g in gs ensures ParseDecimal(s, g.lo, g.hi).Some? {
        var k :| 0 <= k < |gs| && gs[k] == g;
      }
    }
  }

  /** `float()` of a group of the line; None also for a group outside it. */
  function GroupFloat(s: string, g: Group): Option<real> {
    if g.lo <= g.hi <= |s| then ParseDecimal(s, g.lo, g.hi) else None
  }

  /** Once the main pattern reads an address line, the hop has its hop number,
      its address, its host name exactly when it has one, and its reply times in
      order; a reply time `float()` rejects makes the line give None. */
  lemma AddressLineHop(s: string, hop: Group, addr: Group, host: Option<Group>, rtts: seq<Group>)
    requires !IsBlank(s) && !Contains(s, "traceroute to")
    requires MatchMixed(s) == None && MatchMain(s) == Some(AddressLine(hop, addr, host, rtts))
    ensures ParseHop(s).Some? <==> forall k :: 0 <= k < |rtts| ==> GroupFloat(s, rtts[k]).Some?
    ensures ParseHop(s).Some? ==>
      var h := ParseHop(s).value;
      && h.hopNumber == WholeNumber(s, hop)
      && h.ip == Some(s[addr.lo..addr.hi])
      && h.hostname == (if host.Some? then Some(s[host.value.lo..host.value.hi]) else None)
      && |h.rttMs.value| == |rtts|
      && forall k :: 0 <= k < |rtts| ==> GroupFloat(s, rtts[k]) == Some(h.rttMs.value[k])
  {
    AddressLineShape(s);
    forall k | 0 <= k < |rtts|
      ensures rtts[k].lo <= rtts[k].hi <= |s|
      ensures GroupFloat(s, rtts[k]) == ParseDecimal(s, rtts[k].lo, rtts[k].hi)
    {
      assert rtts[k] in rtts;
    }
    FloatsByIndex(s, rtts);
    var f := Floats(s, rtts);
    assert ParseHop(s) == if f.None? then None
      else Some(Hop(WholeNumber(s, hop), Some(s[addr.lo..addr.hi]),
                    if host.Some? then Some(s[host.value.lo..host.value.hi]) else None, f));
  }

  /** An address line gives its hop number, its address, its host name exactly
      when it has one, and its one to three reply times in order. */
  lemma AddressLineParses(s: string, hop: Group, addr: Group, host: Option<Group>, c: nat, rtts: seq<Group>, ends: seq<nat>)
    requires AddressLineAt(s, hop, addr, host, c, rtts, ends) && !Contains(s, "traceroute to")
    ensures ParseHop(s).Some? <==> forall k :: 0 <= k < |rtts| ==> GroupFloat(s, rtts[k]).Some?
    ensures ParseHop(s).Some? ==>
      var h := ParseHop(s).value;
      && h.hopNumber == WholeNumber(s, hop)
      && h.ip == Some(s[addr.lo..addr.hi])
      && h.hostname == (if host.Some? then Some(s[host.value.lo..host.value.hi]) else None)
      && |h.rttMs.value| == |rtts|
      && forall k :: 0 <= k < |rtts| ==> GroupFloat(s, rtts[k]) == Some(h.rttMs.value[k])
  {
    HopLineNotBlank(s, hop, addr.lo);
    AddressLineMatches(s, hop, addr, host, c, rtts, ends);
    AddressLineHop(s, hop, addr, host, rtts);
  }

  /** A line of three stars, from `traceroute` or from `tracert` (whatever
      follows the stars), gives its hop number and an empty list of reply times. */
  lemma TripleStarLineParses(s: string, hop: Group, p: nat, q1: nat, q2: nat)
    requires HopAt(s, hop, p) && StarsAt(s, p, q1, q2) && !Contains(s, "traceroute to")
    ensures ParseHop(s) == Some(Hop(WholeNumber(s, hop), None, None, Some([])))
  {
    HopLineNotBlank(s, hop, p);
    TripleStarLineMatches(s, hop, p, q1, q2);
    TripleStarLineShape(s);
  }

  /** The values the first two patterns' atoms take on a `tracert` reply line
      whose first time is separated from its "ms": the main pattern reads the
      first time as an address and then finds "ms" where a reply time must start. */
  predicate WindowsReplySteps(s: string, hop: Group, i: nat, a: nat, m: nat) {
    && HopPrefix(s) == Some((hop, i)) && i < a < m < |s|
    && s[i] != '*' && s[m] == 'm'
    && Plus(s, i, NonSpace) == Some(a) && Plus(s, a, Space) == Some(m)
  }

  lemma WindowsReplyStepsAt(s: string, hop: Group, rtts: seq<Group>, ms: seq<nat>, ends: seq<nat>, token: Group)
    requires WindowsReplyAt(s, hop, rtts, ms, ends, token) && rtts[0].hi < ms[0]
    ensures WindowsReplySteps(s, hop, rtts[0].lo, rtts[0].hi, ms[0])
  {
    HopPrefixAt(s, hop, rtts[0].lo);
    PlusOfRun(s, rtts[0].lo, rtts[0].hi, NonSpace);
    PlusOfRun(s, rtts[0].hi, ms[0], Space);
  }

  lemma WindowsReplyChain(s: string, hop: Group, i: nat, a: nat, m: nat)
    requires WindowsReplySteps(s, hop, i, a, m)
    ensures MatchMixed(s) == None && MatchMain(s) == None
  {
    assert Char(s, i, '*') == None;
    assert ThreeStars(s, i) == None;
    assert HostPart(s, a) == None;
    assert Plus(s, m, NumberChar) == None;
    assert RttRun(s, a) == None;
  }

  /** `float()` of three digit runs gives their values. */
  lemma FloatsOfDigits(s: string, gs: seq<Group>)
    requires |gs| == 3 && GroupOf(s, gs[0], Digit) && GroupOf(s, gs[1], Digit) && GroupOf(s, gs[2], Digit)
    ensures Floats(s, gs) == Some([WholeNumber(s, gs[0]) as real,
      WholeNumber(s, gs[1]) as real, WholeNumber(s, gs[2]) as real])
  {
    Elements(gs);
    DigitsParse(s, gs[0]);
    DigitsParse(s, gs[1]);
    DigitsParse(s, gs[2]);
    Elements(Floats(s, gs).value);
  }

  /** Once only the Windows pattern reads a reply line with no '*', the hop has
      its three whole-millisecond times; its trailing token is the address when
      it is an IP literal and the host name otherwise. */
  lemma WindowsReplyHop(s: string, hop: Group, rtts: seq<Group>, token: Group)
    requires !IsBlank(s) && !Contains(s, "traceroute to") && !Contains(s, "*")
    requires MatchMixed(s) == None && MatchMain(s) == None
    requires MatchWindows(s) == Some(WindowsReply(hop, rtts, token))
    ensures var t := s[token.lo..token.hi];
      ParseHop(s) == Some(Hop(WholeNumber(s, hop),
        if IsIpLiteral(t) then Some(t) else None,
        if IsIpLiteral(t) then None else Some(t),
        Some([WholeNumber(s, rtts[0]) as real, WholeNumber(s, rtts[1]) as real,
              WholeNumber(s, rtts[2]) as real])))
  {
    FallbackNeverFires(s);
    WindowsTokenClassified(s);
    assert rtts[0] in rtts && rtts[1] in rtts && rtts[2] in rtts;
    FloatsOfDigits(s, rtts);
  }

  /** A `tracert` reply line with no '*' gives its three whole-millisecond times
      and its trailing token, as the address when it is an IP literal and as the
      host name otherwise. The first time must be apart from its "ms" (as
      `tracert` prints it), or the main pattern reads the line first. */
  lemma WindowsReplyParses(s: string, hop: Group, rtts: seq<Group>, ms: seq<nat>, ends: seq<nat>, token: Group)
    requires WindowsReplyAt(s, hop, rtts, ms, ends, token) && rtts[0].hi < ms[0]
    requires !Contains(s, "*") && !Contains(s, "traceroute to")
    ensures var t := s[token.lo..token.hi];
      ParseHop(s) == Some(Hop(WholeNumber(s, hop),
        if IsIpLiteral(t) then Some(t) else None,
        if IsIpLiteral(t) then None else Some(t),
        Some([WholeNumber(s, rtts[0]) as real, WholeNumber(s, rtts[1]) as real,
              WholeNumber(s, rtts[2]) as real])))
  {
    HopLineNotBlank(s, hop, rtts[0].lo);
    WindowsReplyStepsAt(s, hop, rtts, ms, ends, token);
    WindowsReplyChain(s, hop, rtts[0].lo, rtts[0].hi, ms[0]);
    WindowsReplyMatches(s, hop, rtts, ms, ends, token);
    WindowsReplyHop(s, hop, rtts, token);
  }

  /** A `traceroute` line whose first probe timed out. */
  const MixedLine := "7  * 8.8.8.8  23.323 ms  19.489 ms"

  /** A line without the letter 't' holds no "traceroute to". */
  lemma NoHeaderWithoutT(s: string)
    requires 't' !in s
    ensures !Contains(s, "traceroute to")
  {
    ContainsMeans(s, "traceroute to");
    forall j: nat
      ensures !OccursAt(s, "traceroute to", j)
    {
      if j + 13 <= |s| {
        assert s[j] in s;
        assert s[j..j + 13][0] != "traceroute to"[0];
      }
    }
  }

  /** How the line's groups sit: "7" at 0, '*' at 3, the address at 5..12 and
      the two reply times at 14..20 and 25..31. */
  lemma MixedLineLayout()
    ensures MixedLineAt(MixedLine, Group(0, 1), 3, Group(5, 12), Group(14, 20), 23, Group(25, 31), 34)
  {
    MixedLineHead();
    MixedLineFirstTime();
    MixedLineSecondTime();
  }

  lemma MixedLineHead()
    ensures StarAddressAt(MixedLine, Group(0, 1), 3, Group(5, 12))
  {
    var s := MixedLine;
    assert s[0] == '7' && s[1] == ' ' && s[2] == ' ' && s[3] == '*' && s[4] == ' ' && s[5] == '8' && s[6] == '.' && s[7] == '8' && s[8] == '.' && s[9] == '8' && s[10] == '.' && s[11] == '8' && s[12] == ' ';
    assert MaxRun(s, 0, 0, Space) && MaxRun(s, 0, 1, Digit);
    assert MaxRun(s, 1, 3, Space) && MaxRun(s, 4, 5, Space);
    forall m | 5 <= m < 12 ensures InClass(s[m], NonSpace) {
    }
  }

  lemma MixedLineFirstTime()
    ensures RttAt(MixedLine, 12, Group(14, 20), 23)
  {
    var s := MixedLine;
    assert s[12] == ' ' && s[13] == ' ' && s[14] == '2' && s[15] == '3' && s[16] == '.' && s[17] == '3' && s[18] == '2' && s[19] == '3' && s[20] == ' ' && s[21] == 'm' && s[22] == 's';
    assert MaxRun(s, 12, 14, Space) && MaxRun(s, 20, 21, Space);
    forall m | 14 <= m < 20 ensures InClass(s[m], NumberChar) {
    }
  }

  lemma MixedLineSecondTime()
    ensures RttAt(MixedLine, 23, Group(25, 31), 34)
  {
    var s := MixedLine;
    assert s[23] == ' ' && s[24] == ' ' && s[25] == '1' && s[26] == '9' && s[27] == '.' && s[28] == '4' && s[29] == '8' && s[30] == '9' && s[31] == ' ' && s[32] == 'm' && s[33] == 's';
    assert MaxRun(s, 23, 25, Space) && MaxRun(s, 31, 32, Space);
    forall m | 25 <= m < 31 ensures InClass(s[m], NumberChar) {
    }
  }

  /** `float()` of the first reply time. */
  lemma MixedLineFirstValue()
    ensures ParseDecimal(MixedLine, 14, 20) == Some(23.323)
  {
    var s := MixedLine;
    assert s[14] == '2' && s[15] == '3' && s[16] == '.' && s[17] == '3' && s[18] == '2' && s[19] == '3';
    assert Span(s, 14, 20, Digit) == 16;
    assert Span(s, 17, 20, Digit) == 20;
    assert DigitsValue(s, 14, 16) == 23;
    assert DigitsValue(s, 17, 20) == 323;
    assert Shift(323.0, 1) == 32.3 && Shift(323.0, 2) == 3.23 && Shift(323.0, 3) == 0.323;
  }

  /** `float()` of the second reply time. */
  lemma MixedLineSecondValue()
    ensures ParseDecimal(MixedLine, 25, 31) == Some(19.489)
  {
    var s := MixedLine;
    assert s[25] == '1' && s[26] == '9' && s[27] == '.' && s[28] == '4' && s[29] == '8' && s[30] == '9';
    assert Span(s, 25, 31, Digit) == 27;
    assert Span(s, 28, 31, Digit) == 31;
    assert DigitsValue(s, 25, 27) == 19;
    assert DigitsValue(s, 28, 31) == 489;
    assert Shift(489.0, 1) == 48.9 && Shift(489.0, 2) == 4.89 && Shift(489.0, 3) == 0.489;
  }

  /** The line is not the header. */
  lemma MixedLineNoHeader()
    ensures !Contains(MixedLine, "traceroute to")
  {
    assert 't' !in MixedLine;
    NoHeaderWithoutT(MixedLine);
  }

  /** Its hop number is 7 and its address 8.8.8.8. */
  lemma MixedLineText()
    ensures DigitsValue(MixedLine, 0, 1) == 7 && MixedLine[5..12] == "8.8.8.8"
  {
    var s := MixedLine;
    assert s[0] == '7';
    assert DigitsValue(s, 0, 0) == 0;
    assert s[5] == '8' && s[6] == '.' && s[7] == '8' && s[8] == '.' && s[9] == '8' && s[10] == '.' && s[11] == '8';
  }

  /** The mixed line gives hop 7 at 8.8.8.8 with its two reply times. */
  lemma MixedLineExample()
    ensures ParseHop(MixedLine) == Some(Hop(7, Some("8.8.8.8"), None, Some([23.323, 19.489])))
  {
    MixedLineNoHeader();
    MixedLineText();
    MixedLineLayout();
    MixedLineFirstValue();
    MixedLineSecondValue();
    MixedLineParses(MixedLine, Group(0, 1), 3, Group(5, 12), Group(14, 20), 23, Group(25, 31), 34);
  }

  /** A line none of the patterns matches gives None. */
  lemma NoShapeGivesNone(line: string)
    requires MatchMixed(line).None? && MatchMain(line).None? && MatchWindows(line).None?
    ensures ParseHop(line) == None
  {
    if !IsBlank(line) && !Contains(line, "traceroute to") {
      FallbackNeverFires(line);
    }
  }

  /** A line whose first non-space character is not a digit gives None. */
  lemma NoHopNumberGivesNone(line: string)
    requires var i := Span(line, 0, |line|, Space); i == |line| || !IsDigit(line[i])
    ensures ParseHop(line) == None
  {
    assert HopPrefix(line) == None;
    NoShapeGivesNone(line);
  }

  /** A line that starts with a character other than a space or a digit gives None. */
  lemma FirstCharGivesNone(line: string)
    requires |line| > 0 && !IsSpace(line[0]) && !IsDigit(line[0])
    ensures ParseHop(line) == None
  {
    assert Span(line, 0, |line|, Space) == 0;
    NoHopNumberGivesNone(line);
  }

  /** The lines `tracert` prints around its hops. */
  const TracingLine := "Tracing route to example.com [93.184.216.34]"
  const OverLine := "over a maximum of 30 hops:"
  const CompleteLine := "Trace complete."

  lemma FramingLinesGiveNone()
    ensures ParseHop(TracingLine) == None && ParseHop(OverLine) == None && ParseHop(CompleteLine) == None
  {
    FirstCharGivesNone(TracingLine);
    FirstCharGivesNone(OverLine);
    FirstCharGivesNone(CompleteLine);
  }

  // ---------------------------------------------------------------------
  // Whole outputs
  // ---------------------------------------------------------------------

  /** The hops of `lines`: every line's `ParseHop` result that is not None, in line order. */
  function ParsedHops(lines: seq<string>): (hops: seq<Hop>)
    ensures |hops| <= |lines|
  {
    FilterMap(ParseHop, lines)
  }

  /** Parsing two stretches of output separately gives the hops of the whole. */
  lemma ParsedHopsAppend(a: seq<string>, b: seq<string>)
    ensures ParsedHops(a + b) == ParsedHops(a) + ParsedHops(b)
  {
    FilterMapAppend(ParseHop, a, b);
  }

  /** Every hop comes from some line, and every line that parses contributes its hop. */
  lemma ParsedHopsMembers(lines: seq<string>, h: Hop)
    ensures h in ParsedHops(lines) <==> exists i :: 0 <= i < |lines| && ParseHop(lines[i]) == Some(h)
  {
    FilterMapMembers(ParseHop, lines, h);
  }

  /** The members lemma for every hop at once. */
  lemma ParsedHopsAllMembers(lines: seq<string>)
    ensures forall h :: h in ParsedHops(lines) <==> exists i :: 0 <= i < |lines| && ParseHop(lines[i]) == Some(h)
  {
    forall h | true
      ensures h in ParsedHops(lines) <==> exists i :: 0 <= i < |lines| && ParseHop(lines[i]) == Some(h)
    {
      ParsedHopsMembers(lines, h);
    }
  }

  /** Python's `line.strip()` applied to each line read from the process. */
  function StripAll(lines: seq<string>): (r: seq<string>)
    ensures |r| == |lines| && forall i :: 0 <= i < |lines| ==> r[i] == Strip(lines[i])
  {
    seq(|lines|, i requires 0 <= i < |lines| => Strip(lines[i]))
  }

  /** The text of `str(x)` where `x` may be None. */
  function OptIntText(x: Option<int>): string {
    if x.Some? then IntToString(x.value) else "None"
  }

  /** `Traceroute._build_command` for the lower-cased platform name `os`. */
  function BuildCommand(os: string, target: string, maxHops: Option<int>, timeout: real, retries: int): (r: Result<string>)
    ensures r.Err? <==> os != "darwin" && os != "linux" && os != "windows"
    ensures r.Err? ==> r.message == "Unsupported operating system: " + os
    ensures os == "darwin" || os == "linux" ==> r == Ok("traceroute -n -w " + IntToString(Truncate(timeout)) + " -q " + IntToString(retries)
                                                         + " -m " + OptIntText(maxHops) + " " + target)
    ensures os == "windows" ==> r == Ok("tracert -w " + IntToString(Truncate(timeout * 1000.0)) + " -h " + OptIntText(maxHops) + " " + target)
  {
    if os == "darwin" || os == "linux" then
      Ok("traceroute -n -w " + IntToString(Truncate(timeout)) + " -q " + IntToString(retries)
         + " -m " + OptIntText(maxHops) + " " + target)
    else if os == "windows" then
      Ok("tracert -w " + IntToString(Truncate(timeout * 1000.0)) + " -h " + OptIntText(maxHops) + " " + target)
    else Err("Unsupported operating system: " + os)
  }

  /** The spawned diagnostic process: it runs until it exits or is terminated. */
  class Process {
    const command: string
    var running: bool
    var terminated: bool

    constructor (command: string)
      ensures this.command == command && running && !terminated
    {
      this.command := command;
      running := true;
      terminated := false;
    }

    /** `process.terminate()` followed by `await process.wait()`. */
    method TerminateAndWait()
      modifies this
      ensures terminated && !running
    {
      terminated := true;
      running := false;
    }

    /** `await process.wait()` after the output closed on its own. */
    method Wait()
      modifies this
      ensures !running && terminated == old(terminated)
    {
      running := false;
    }
  }

  /** A `Traceroute` object: its parameters and the handle of the running process, if any. */
  class Tracer {
    const target: string
    const targetIp: string
    const maxHops: Option<int>
    const timeout: real
    const retries: int
    var process: Option<Process>

    constructor (target: string, targetIp: string, maxHops: Option<int>, timeout: real, retries: int)
      ensures this.target == target && this.targetIp == targetIp && this.maxHops == maxHops
      ensures this.timeout == timeout && this.retries == retries
      ensures process == None
    {
      this.target := target;
      this.targetIp := targetIp;
      this.maxHops := maxHops;
      this.timeout := timeout;
      this.retries := retries;
      process := None;
    }

    /** The process object `Stop` may change. */
    function Running(): set<object>
      reads this
    {
      if process.Some? then {process.value} else {}
    }

    /** `stop`: nothing when no process is held; otherwise terminate it, wait
        for it, and release the handle. */
    method Stop()
      modifies this, Running()
      ensures process == None
      ensures old(process).Some? ==> old(process).value.terminated && !old(process).value.running
    {
      if process.Some? {
        process.value.TerminateAndWait();
        process := None;
      }
    }

    /** `_parse_output` over the lines of the captured output. */
    method ParseOutput(lines: seq<string>) returns (hops: seq<Hop>)
      ensures hops == ParsedHops(lines)
    {
      hops := [];
      var i := 0;
      while i < |lines|
        invariant 0 <= i <= |lines|
        invariant hops == ParsedHops(lines[..i])
      {
        FilterMapStep(ParseHop, lines, i);
        var hop := ParseHop(lines[i]);
        if hop.Some? {
          hops := hops + [hop.value];
        }
        i := i + 1;
      }
      assert lines[..|lines|] == lines;
    }

    /** `run`: the command is built first, so an unsupported platform raises;
        otherwise the whole output, split into `lines`, is parsed. The process
        is local to the call and `process` is not touched. */
    method Run(os: string, lines: seq<string>) returns (r: Result<seq<Hop>>)
      ensures r.Err? <==> BuildCommand(os, target, maxHops, timeout, retries).Err?
      ensures r.Err? ==> r.message == BuildCommand(os, target, maxHops, timeout, retries).message
      ensures r.Ok? ==> r.value == ParsedHops(lines)
    {
      var cmd := BuildCommand(os, target, maxHops, timeout, retries);
      if cmd.Err? {
        return Err(cmd.message);
      }
      var hops := ParseOutput(lines);
      r := Ok(hops);
    }

    /** The reading part of `run_stream` over the lines the process writes
        (`lines`, read until end of output, each stripped): the first line is
        dropped when it is the header, blank lines are skipped, and the hops of
        the other lines are yielded in order. */
    method ReadHops(lines: seq<string>) returns (hops: seq<Hop>)
      ensures hops == ParsedHops(StripAll(lines))
    {
      var stripped := StripAll(lines);
      if |lines| > 0 {
        hops := ReadFirstLine(stripped[0]);
        assert stripped[..1] == [stripped[0]];
        hops := ReadRemainingLines(stripped, 1, hops);
      } else {
        hops := [];
      }
    }

    /** The first line is read before the loop and skipped when it is the header. */
    method ReadFirstLine(first: string) returns (hops: seq<Hop>)
      ensures hops == ParsedHops([first])
    {
      hops := [];
      if !Contains(first, "traceroute to") {
        var hop := ParseHop(first);
        if hop.Some? {
          hops := [hop.value];
        }
      }
      assert [first][..0] == [];
    }

    /** The loop of `run_stream` from line `start` on, having yielded `hops0` so far. */
    method ReadRemainingLines(stripped: seq<string>, start: nat, hops0: seq<Hop>) returns (hops: seq<Hop>)
      requires start <= |stripped| && hops0 == ParsedHops(stripped[..start])
      ensures hops == ParsedHops(stripped)
    {
      hops := hops0;
      var i := start;
      while i < |stripped|
        invariant start <= i <= |stripped|
        invariant hops == ParsedHops(stripped[..i])
      {
        FilterMapStep(ParseHop, stripped, i);
        var line := stripped[i];
        if line != "" {
          var hop := ParseHop(line);
          if hop.Some? {
            hops := hops + [hop.value];
          }
        } else {
          assert IsBlank(line);
        }
        i := i + 1;
      }
      assert stripped[..|stripped|] == stripped;
    }

    /** `run_stream`: the command is built first, so an unsupported platform
        raises before any process exists; otherwise the process is held while
        its output is read, then waited for and released once the output ends. */
    method RunStream(os: string, lines: seq<string>) returns (r: Result<seq<Hop>>)
      modifies this
      ensures BuildCommand(os, target, maxHops, timeout, retries).Err? ==>
        r == Err(BuildCommand(os, target, maxHops, timeout, retries).message) && process == old(process)
      ensures BuildCommand(os, target, maxHops, timeout, retries).Ok? ==>
        r == Ok(ParsedHops(StripAll(lines))) && process == None
    {
      var cmd := BuildCommand(os, target, maxHops, timeout, retries);
      if cmd.Err? {
        return Err(cmd.message);
      }
      var p := new Process(cmd.value);
      process := Some(p);
      var hops := ReadHops(lines);
      p.Wait();
      process := None;
      r := Ok(hops);
    }
  }

  /** `Traceroute(target, max_hops, timeout, retries)`: the host name is resolved
      (`resolved` is what the resolver answered) before anything else, and a
      failed resolution raises `ValueError` instead of creating the object. */
  method NewTracer(target: string, maxHops: Option<int>, timeout: real, retries: int, resolved: Option<string>)
    returns (r: Result<Tracer>)
    ensures resolved.None? <==> r.Err?
    ensures r.Err? ==> r.message == "Could not resolve hostname: " + target
    ensures r.Ok? ==> fresh(r.value) && r.value.process == None
    ensures r.Ok? ==> r.value.target == target && r.value.targetIp == resolved.value
    ensures r.Ok? ==> r.value.maxHops == maxHops && r.value.timeout == timeout && r.value.retries == retries
  {
    if resolved.None? {
      return Err("Could not resolve hostname: " + target);
    }
    var t := new Tracer(target, resolved.value, maxHops, timeout, retries);
    r := Ok(t);
  }
}
