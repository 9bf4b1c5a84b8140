/** Shared vocabulary: optional values and results, the character scanning
    used by every text recogniser of the model, Python's `float()` on decimal
    text, and IPv4 literals as Python's `ipaddress` module reads them. */
module Common {

  /** Python's `None`-or-value. */
  datatype Option<+T> = None | Some(value: T) {
    predicate IsFailure() { None? }
    function PropagateFailure<U>(): Option<U>
      requires None?
    { None }
    function Extract(): T
      requires Some?
    { value }
  }

  /** A value, or the message of the exception that was raised instead. */
  datatype Result<+T> = Ok(value: T) | Err(message: string) {
    predicate IsFailure() { Err? }
    function PropagateFailure<U>(): Result<U>
      requires Err?
    { Err(message) }
    function Extract(): T
      requires Ok?
    { value }
  }

  /** A member of a JSON object: absent, `null`, or a value of the expected type. */
  datatype Raw<T> = Missing | Null | Given(value: T)

  /** A text that is present and non-empty, i.e. truthy in Python and JavaScript. */
  predicate NonEmpty(s: Option<string>) {
    s.Some? && s.value != ""
  }

  /** A number that is present and non-zero, i.e. truthy in Python. */
  predicate NonZero(x: Option<real>) {
    x.Some? && x.value != 0.0
  }

  /** The `Some` values of `f` over `xs`, in order (a loop that appends every
      non-None result). */
  function FilterMap<A, B>(f: A -> Option<B>, xs: seq<A>): (r: seq<B>)
    ensures |r| <= |xs|
  {
    if xs == [] then []
    else
      var last := f(xs[|xs| - 1]);
      FilterMap(f, xs[..|xs| - 1]) + (if last.Some? then [last.value] else [])
  }

  /** `f` applied to every element together with its index. */
  function MapIndexed<A, B>(f: (nat, A) -> B, xs: seq<A>): (r: seq<B>)
    ensures |r| == |xs| && forall i :: 0 <= i < |xs| ==> r[i] == f(i, xs[i])
  {
    if xs == [] then [] else MapIndexed(f, xs[..|xs| - 1]) + [f(|xs| - 1, xs[|xs| - 1])]
  }

  /** Filtering two stretches separately gives the filtered whole. */
  lemma {:induction false} FilterMapAppend<A, B>(f: A -> Option<B>, a: seq<A>, b: seq<A>)
    ensures FilterMap(f, a + b) == FilterMap(f, a) + FilterMap(f, b)
    decreases |b|
  {
    if b == [] {
      assert a + b == a;
    } else {
      var b' := b[..|b| - 1];
      assert (a + b)[..|a + b| - 1] == a + b';
      FilterMapAppend(f, a, b');
    }
  }

  /** One more element keeps its value, if it has one. */
  lemma {:induction false} FilterMapStep<A, B>(f: A -> Option<B>, xs: seq<A>, i: nat)
    requires i < |xs|
    ensures FilterMap(f, xs[..i + 1]) == FilterMap(f, xs[..i]) + (if f(xs[i]).Some? then [f(xs[i]).value] else [])
  {
    assert xs[..i + 1][..i] == xs[..i];
  }

  /** Every kept value comes from some element, and every element with a value contributes it. */
  lemma {:induction false} FilterMapMembers<A, B>(f: A -> Option<B>, xs: seq<A>, y: B)
    ensures y in FilterMap(f, xs) <==> exists i :: 0 <= i < |xs| && f(xs[i]) == Some(y)
  {
    if xs != [] {
      var init := xs[..|xs| - 1];
      FilterMapMembers(f, init, y);
      if y in FilterMap(f, xs) && y !in FilterMap(f, init) {
        assert f(xs[|xs| - 1]) == Some(y);
      }
      if exists i :: 0 <= i < |xs| && f(xs[i]) == Some(y) {
        var i :| 0 <= i < |xs| && f(xs[i]) == Some(y);
        if i < |xs| - 1 {
          assert init[i] == xs[i];
        }
      }
    }
  }

  // ---------------------------------------------------------------------
  // Character classes and maximal runs
  // ---------------------------------------------------------------------

  /** Python's `str.isspace()` restricted to ASCII (the `\s` of `re` and what `strip()` removes). */
  predicate IsSpace(c: char) {
    c == ' ' || c == '\t' || c == '\n' || c == '\r' || c == '\U{B}' || c == '\U{C}'
    || ('\U{1C}' <= c <= '\U{1F}')
  }

  predicate IsDigit(c: char) {
    '0' <= c <= '9'
  }

  /** The character classes the recognisers need: `\s`, `\d`, `[^\s]`, `[0-9.]` and `[^c]`. */
  datatype CharClass = Space | Digit | NonSpace | NumberChar | Except(excluded: char)

  predicate InClass(c: char, k: CharClass) {
    match k
    case Space => IsSpace(c)
    case Digit => IsDigit(c)
    case NonSpace => !IsSpace(c)
    case NumberChar => IsDigit(c) || c == '.'
    case Except(x) => c != x
  }

  /** The end of the longest run of class `k` that starts at `i` and stays before `end`. */
  function Span(s: string, i: nat, end: nat, k: CharClass): (j: nat)
    requires i <= end <= |s|
    ensures i <= j <= end
    ensures forall m :: i <= m < j ==> InClass(s[m], k)
    ensures j == end || !InClass(s[j], k)
    decreases end - i
  {
    if i < end && InClass(s[i], k) then Span(s, i + 1, end, k) else i
  }

  // ---------------------------------------------------------------------
  // Substrings
  // ---------------------------------------------------------------------

  /** `sub` occurs in `s` starting at index `k`. */
  predicate OccursAt(s: string, sub: string, k: nat) {
    k + |sub| <= |s| && s[k..k + |sub|] == sub
  }

  /** Character-by-character comparison of `sub[m..]` with `s[k + m..]`. */
  function MatchesFrom(s: string, sub: string, k: nat, m: nat): bool
    requires k + |sub| <= |s| && m <= |sub|
    decreases |sub| - m
  {
    m == |sub| || (s[k + m] == sub[m] && MatchesFrom(s, sub, k, m + 1))
  }

  lemma {:induction false} MatchesFromMeans(s: string, sub: string, k: nat, m: nat)
    requires k + |sub| <= |s| && m <= |sub|
    ensures MatchesFrom(s, sub, k, m) <==> s[k + m..k + |sub|] == sub[m..]
    decreases |sub| - m
  {
    if m < |sub| {
      MatchesFromMeans(s, sub, k, m + 1);
      assert s[k + m..k + |sub|] == [s[k + m]] + s[k + m + 1..k + |sub|];
      assert sub[m..] == [sub[m]] + sub[m + 1..];
    }
  }

  /** Some occurrence of `sub` starts at or after index `k`. */
  function ContainsFrom(s: string, sub: string, k: nat): bool
    decreases |s| + 1 - k
  {
    k + |sub| <= |s| && (MatchesFrom(s, sub, k, 0) || ContainsFrom(s, sub, k + 1))
  }

  lemma {:induction false} ContainsFromMeans(s: string, sub: string, k: nat)
    ensures ContainsFrom(s, sub, k) <==> exists j :: k <= j && OccursAt(s, sub, j)
    decreases |s| + 1 - k
  {
    if k + |sub| <= |s| {
      MatchesFromMeans(s, sub, k, 0);
      ContainsFromMeans(s, sub, k + 1);
      assert OccursAt(s, sub, k) <==> MatchesFrom(s, sub, k, 0);
      assert forall j :: k <= j && OccursAt(s, sub, j) ==> j == k || k + 1 <= j;
    } else {
      assert forall j :: k <= j ==> !OccursAt(s, sub, j);
    }
  }

  /** Python's `sub in s` and JavaScript's `s.includes(sub)`. */
  predicate Contains(s: string, sub: string) {
    ContainsFrom(s, sub, 0)
  }

  /** `sub in s` holds exactly when `sub` occurs at some index of `s`. */
  lemma ContainsMeans(s: string, sub: string)
    ensures Contains(s, sub) <==> exists j :: OccursAt(s, sub, j)
  {
    ContainsFromMeans(s, sub, 0);
  }

  /** Python's `s.startswith(p)` and JavaScript's `s.startsWith(p)`. */
  predicate StartsWith(s: string, p: string) {
    |p| <= |s| && MatchesFrom(s, p, 0, 0)
  }

  lemma StartsWithMeans(s: string, p: string)
    ensures StartsWith(s, p) <==> |p| <= |s| && s[..|p|] == p
  {
    if |p| <= |s| {
      MatchesFromMeans(s, p, 0, 0);
    }
  }

  /** The first index at or after `k` where `sep` occurs in `s`. */
  function FindFrom(s: string, sep: string, k: nat): (r: Option<nat>)
    ensures r.Some? ==> k <= r.value && OccursAt(s, sep, r.value)
    ensures r.Some? ==> forall j :: k <= j < r.value ==> !OccursAt(s, sep, j)
    ensures r.None? ==> forall j :: k <= j ==> !OccursAt(s, sep, j)
    decreases |s| + 1 - k
  {
    if k + |sep| > |s| then None
    else if MatchesFrom(s, sep, k, 0) then
      MatchesFromMeans(s, sep, k, 0);
      Some(k)
    else
      MatchesFromMeans(s, sep, k, 0);
      FindFrom(s, sep, k + 1)
  }

  /** Python's `s.split(sep)` and JavaScript's `s.split(sep)` for a non-empty separator. */
  function Split(s: string, sep: string): (r: seq<string>)
    requires |sep| > 0
    ensures |r| >= 1
    decreases |s|
  {
    match FindFrom(s, sep, 0)
    case None => [s]
    case Some(j) => [s[..j]] + Split(s[j + |sep|..], sep)
  }

  /** `sep.join(parts)`. */
  function Join(parts: seq<string>, sep: string): string
  {
    if |parts| <= 1 then (if parts == [] then "" else parts[0])
    else parts[0] + sep + Join(parts[1..], sep)
  }

  /** Splitting and joining again gives the original text back. */
  lemma {:induction false} JoinSplit(s: string, sep: string)
    requires |sep| > 0
    ensures Join(Split(s, sep), sep) == s
    decreases |s|
  {
    match FindFrom(s, sep, 0)
    case None =>
    case Some(j) =>
      var rest := s[j + |sep|..];
      JoinSplit(rest, sep);
      var parts := Split(s, sep);
      assert parts[1..] == Split(rest, sep);
      assert s == s[..j] + sep + rest;
  }

  /** No piece of a split contains the separator. */
  lemma {:induction false} SplitPiecesFree(s: string, sep: string)
    requires |sep| > 0
    ensures forall p, j: nat :: p in Split(s, sep) ==> !OccursAt(p, sep, j)
    decreases |s|
  {
    match FindFrom(s, sep, 0)
    case None =>
    case Some(j) =>
      var rest := s[j + |sep|..];
      SplitPiecesFree(rest, sep);
      var head := s[..j];
      forall i: nat | OccursAt(head, sep, i)
        ensures false
      {
        assert s[i..i + |sep|] == head[i..i + |sep|];
        assert OccursAt(s, sep, i);
      }
  }

  /** The first occurrence of `sep` in `s` is at `j` exactly when `sep`
      occurs at `j` and nowhere before it. */
  lemma FirstOccurrence(s: string, sep: string, j: nat)
    ensures FindFrom(s, sep, 0) == Some(j) <==> OccursAt(s, sep, j) && forall i :: 0 <= i < j ==> !OccursAt(s, sep, i)
  {
  }

  /** Occurrences that end inside a prefix are occurrences in the prefix. */
  lemma {:induction false} OccursInPrefix(s: string, t: string, sep: string, i: nat)
    requires |t| <= |s| && s[..|t|] == t && i + |sep| <= |t|
    ensures OccursAt(t, sep, i) <==> OccursAt(s, sep, i)
  {
    assert forall m :: i <= m < i + |sep| ==> s[m] == s[..|t|][m];
    assert s[i..i + |sep|] == t[i..i + |sep|];
  }

  /** A first occurrence that ends inside a prefix is the first occurrence in the prefix. */
  lemma {:induction false} FirstInPrefix(s: string, t: string, sep: string, j: nat)
    requires |t| <= |s| && s[..|t|] == t && j + |sep| <= |t|
    ensures FindFrom(s, sep, 0) == Some(j) <==> FindFrom(t, sep, 0) == Some(j)
  {
    FirstOccurrence(s, sep, j);
    FirstOccurrence(t, sep, j);
    forall i | 0 <= i <= j
      ensures OccursAt(t, sep, i) <==> OccursAt(s, sep, i)
    {
      OccursInPrefix(s, t, sep, i);
    }
  }

  /** `p` followed by `sep` contains no occurrence of `sep` before the appended
      one: `p` can be a piece of a split that is followed by another. */
  predicate EndsCleanly(p: string, sep: string) {
    FindFrom(p + sep, sep, 0) == Some(|p|)
  }

  /** Every piece of a split but the last ends cleanly. */
  lemma {:induction false} SplitPiecesClean(s: string, sep: string)
    requires |sep| > 0
    ensures forall i :: 0 <= i < |Split(s, sep)| - 1 ==> EndsCleanly(Split(s, sep)[i], sep)
    decreases |s|
  {
    match FindFrom(s, sep, 0)
    case None =>
    case Some(j) =>
      var rest := s[j + |sep|..];
      SplitPiecesClean(rest, sep);
      var head := s[..j];
      assert head + sep == s[..j + |sep|];
      FirstInPrefix(s, head + sep, sep, j);
      assert Split(s, sep) == [head] + Split(rest, sep);
  }

  /** A text that starts with a piece ending cleanly and the separator splits
      into that piece and the split of the rest. */
  lemma {:induction false} SplitCleanHead(p: string, tail: string, sep: string)
    requires |sep| > 0 && EndsCleanly(p, sep)
    ensures Split(p + sep + tail, sep) == [p] + Split(tail, sep)
  {
    var s := p + sep + tail;
    assert s[..|p + sep|] == p + sep;
    FirstInPrefix(s, p + sep, sep, |p|);
    assert s[..|p|] == p;
    assert s[|p| + |sep|..] == tail;
  }

  /** Joining a piece in front of a non-empty list puts the separator after it. */
  lemma JoinCons(p: string, qs: seq<string>, sep: string)
    requires qs != []
    ensures Join([p] + qs, sep) == p + sep + Join(qs, sep)
  {
    assert ([p] + qs)[1..] == qs;
  }

  /** Joining pieces that end cleanly, followed by a last piece free of the
      separator, and splitting again gives the pieces back. */
  lemma {:induction false} SplitJoin(ps: seq<string>, b: string, sep: string)
    requires |sep| > 0
    requires forall p :: p in ps ==> EndsCleanly(p, sep)
    requires FindFrom(b, sep, 0).None?
    ensures Split(Join(ps + [b], sep), sep) == ps + [b]
    decreases |ps|
  {
    if ps == [] {
      assert ps + [b] == [b];
    } else {
      var p, rest := ps[0], ps[1..];
      assert ps + [b] == [p] + (rest + [b]);
      JoinCons(p, rest + [b], sep);
      assert EndsCleanly(p, sep) by { assert p in ps; }
      SplitCleanHead(p, Join(rest + [b], sep), sep);
      assert forall q :: q in rest ==> q in ps;
      SplitJoin(rest, b, sep);
    }
  }

  /** Appending to the last piece appends to the joined text. */
  lemma {:induction false} JoinExtendLast(ps: seq<string>, b: string, c: string, sep: string)
    ensures Join(ps + [b + c], sep) == Join(ps + [b], sep) + c
    decreases |ps|
  {
    if ps != [] {
      assert (ps + [b + c])[1..] == ps[1..] + [b + c];
      assert (ps + [b])[1..] == ps[1..] + [b];
      JoinExtendLast(ps[1..], b, c, sep);
    }
  }

  /** A last piece that is itself a join can be joined in its pieces' place. */
  lemma {:induction false} JoinFlatten(ps: seq<string>, qs: seq<string>, sep: string)
    requires qs != []
    ensures Join(ps + [Join(qs, sep)], sep) == Join(ps + qs, sep)
    decreases |ps|
  {
    if ps == [] {
      assert ps + qs == qs;
    } else {
      assert (ps + [Join(qs, sep)])[1..] == ps[1..] + [Join(qs, sep)];
      assert (ps + qs)[1..] == ps[1..] + qs;
      JoinFlatten(ps[1..], qs, sep);
    }
  }

  /** Python's `s.strip() == ""`. */
  predicate IsBlank(s: string) {
    Span(s, 0, |s|, Space) == |s|
  }

  /** The start of the trailing run of whitespace of `s[..hi]`. */
  function TrimEnd(s: string, lo: nat, hi: nat): (r: nat)
    requires lo <= hi <= |s|
    ensures lo <= r <= hi
    ensures forall m :: r <= m < hi ==> IsSpace(s[m])
    ensures r == lo || !IsSpace(s[r - 1])
    decreases hi - lo
  {
    if hi > lo && IsSpace(s[hi - 1]) then TrimEnd(s, lo, hi - 1) else hi
  }

  /** Python's `s.strip()` (and JavaScript's `trim()` on ASCII whitespace). */
  function Strip(s: string): (r: string)
    ensures |r| <= |s|
    ensures r == "" || (!IsSpace(r[0]) && !IsSpace(r[|r| - 1]))
    ensures IsBlank(s) <==> r == ""
  {
    var lo := Span(s, 0, |s|, Space);
    var hi := TrimEnd(s, lo, |s|);
    s[lo..hi]
  }

  function LowerChar(c: char): char {
    if 'A' <= c <= 'Z' then (c as int + 32) as char else c
  }

  /** Python's `s.lower()` on ASCII letters. */
  function Lower(s: string): (r: string)
    ensures |r| == |s|
    ensures forall i :: 0 <= i < |s| ==> r[i] == LowerChar(s[i])
  {
    seq(|s|, i requires 0 <= i < |s| => LowerChar(s[i]))
  }

  // ---------------------------------------------------------------------
  // Numbers as text
  // ---------------------------------------------------------------------

  /** The value of the decimal digits `s[i..j]`. */
  function DigitsValue(s: string, i: nat, j: nat): nat
    requires i <= j <= |s|
    requires forall m :: i <= m < j ==> IsDigit(s[m])
    decreases j - i
  {
    if j == i then 0 else DigitsValue(s, i, j - 1) * 10 + DigitValue(s[j - 1])
  }

  /** The value of a digit run depends only on the characters in it. */
  lemma {:induction false} DigitsValueSame(s: string, t: string, i: nat, j: nat)
    requires i <= j <= |s| && j <= |t|
    requires forall m :: i <= m < j ==> IsDigit(s[m]) && s[m] == t[m]
    ensures DigitsValue(s, i, j) == DigitsValue(t, i, j)
  {
    if j > i {
      DigitsValueSame(s, t, i, j - 1);
    }
  }

  function DigitValue(c: char): (d: nat)
    requires IsDigit(c)
    ensures d < 10
  {
    c as int - '0' as int
  }

  /** `x` with the decimal point moved `k` places to the left. */
  function Shift(x: real, k: nat): real {
    if k == 0 then x else Shift(x, k - 1) / 10.0
  }

  /** Python's `float()` on `s[i..j]` in the decimal forms the model supports: an
      optional sign, digits, at most one point, and at least one digit. */
  function ParseDecimal(s: string, i: nat, j: nat): (r: Option<real>)
    requires i <= j <= |s|
    ensures r.Some? ==> i < j
  {
    var signed := i < j && (s[i] == '-' || s[i] == '+');
    var start := if signed then i + 1 else i;
    var intEnd := Span(s, start, j, Digit);
    var hasPoint := intEnd < j && s[intEnd] == '.';
    var fracEnd := if hasPoint then Span(s, intEnd + 1, j, Digit) else intEnd;
    if fracEnd != j || (intEnd == start && fracEnd <= intEnd + 1) then None
    else
      var magnitude := DigitsValue(s, start, intEnd) as real
        + (if hasPoint then Shift(DigitsValue(s, intEnd + 1, fracEnd) as real, fracEnd - intEnd - 1) else 0.0);
      Some(if signed && s[i] == '-' then -magnitude else magnitude)
  }

  /** Python's `float(t)` for a whole string. */
  function ParseFloat(t: string): Option<real> {
    ParseDecimal(t, 0, |t|)
  }

  /** The decimal digits of `n`, most significant first. */
  function NatToString(n: nat): (r: string)
    ensures |r| >= 1
    ensures forall k :: 0 <= k < |r| ==> IsDigit(r[k])
  {
    if n < 10 then ["0123456789"[n]] else NatToString(n / 10) + ["0123456789"[n % 10]]
  }

  /** The digits `NatToString` writes read back as `n`. */
  lemma {:induction false} NatToStringValue(n: nat)
    ensures var r := NatToString(n); DigitsValue(r, 0, |r|) == n
  {
    var d := n % 10;
    assert DigitValue("0123456789"[d]) == d;
    if n >= 10 {
      var front := NatToString(n / 10);
      var r := NatToString(n);
      assert r == front + ["0123456789"[d]];
      NatToStringValue(n / 10);
      DigitsValueSame(r, front, 0, |front|);
      assert DigitsValue(r, 0, |r|) == DigitsValue(front, 0, |front|) * 10 + d;
    }
  }

  /** Python's `str(n)` and JavaScript's template rendering of an integer. */
  function IntToString(n: int): string {
    if n < 0 then "-" + NatToString(-n) else NatToString(n)
  }

  /** Python's `int(x)` on a float: truncation toward zero. */
  function Truncate(x: real): int {
    if x >= 0.0 then x.Floor else -((-x).Floor)
  }

  // ---------------------------------------------------------------------
  // IPv4 literals
  // ---------------------------------------------------------------------

  /** One octet starting at `i`: 1 to 3 ASCII digits, no leading zero, at most 255.
      Gives the octet's value and the index after it. */
  function OctetAt(s: string, i: nat): (r: Option<(nat, nat)>)
    requires i <= |s|
    ensures r.Some? ==> r.value.0 < 256 && i < r.value.1 <= |s|
  {
    var j := Span(s, i, |s|, Digit);
    if j == i || j - i > 3 || (j - i > 1 && s[i] == '0') then None
    else
      var v := DigitsValue(s, i, j);
      if v > 255 then None else Some((v, j))
  }

  /** The octet at `i` followed by a '.', giving the value and the index after the dot. */
  function DottedOctetAt(s: string, i: nat): (r: Option<(nat, nat)>)
    requires i <= |s|
    ensures r.Some? ==> r.value.0 < 256 && i < r.value.1 <= |s|
  {
    var o :- OctetAt(s, i);
    if o.1 < |s| && s[o.1] == '.' then Some((o.0, o.1 + 1)) else None
  }

  /** `ipaddress.IPv4Address(t)`: the 32-bit value of a dotted quad, or None when it raises. */
  function ParseIPv4(t: string): (r: Option<nat>)
    ensures r.Some? ==> r.value < 0x1_0000_0000
  {
    var a :- DottedOctetAt(t, 0);
    var b :- DottedOctetAt(t, a.1);
    var c :- DottedOctetAt(t, b.1);
    var d :- OctetAt(t, c.1);
    if d.1 != |t| then None
    else Some(((a.0 * 256 + b.0) * 256 + c.0) * 256 + d.0)
  }

  /** `ipaddress.ip_address(t)` does not raise. */
  predicate IsIpLiteral(t: string) {
    ParseIPv4(t).Some?
  }

  /** The address `v` lies in the network `base/len`. */
  predicate InNetwork(v: nat, base: nat, len: nat)
    requires len <= 32
  {
    var size := Pow2(32 - len);
    v / size == base / size
  }

  function Pow2(n: nat): (r: nat)
    ensures r >= 1
  {
    if n == 0 then 1 else 2 * Pow2(n - 1)
  }

  /** `IPv4Address.is_private`: membership in Python's table of reserved IPv4 networks. */
  predicate IsPrivateIPv4(v: nat) {
    InNetwork(v, 0x0000_0000, 8)            // 0.0.0.0/8
    || InNetwork(v, 0x0A00_0000, 8)         // 10.0.0.0/8
    || InNetwork(v, 0x7F00_0000, 8)         // 127.0.0.0/8
    || InNetwork(v, 0xA9FE_0000, 16)        // 169.254.0.0/16
    || InNetwork(v, 0xAC10_0000, 12)        // 172.16.0.0/12
    || InNetwork(v, 0xC000_0000, 29)        // 192.0.0.0/29
    || InNetwork(v, 0xC000_00AA, 31)        // 192.0.0.170/31
    || InNetwork(v, 0xC000_0200, 24)        // 192.0.2.0/24
    || InNetwork(v, 0xC0A8_0000, 16)        // 192.168.0.0/16
    || InNetwork(v, 0xC612_0000, 15)        // 198.18.0.0/15
    || InNetwork(v, 0xC633_6400, 24)        // 198.51.100.0/24
    || InNetwork(v, 0xCB00_7100, 24)        // 203.0.113.0/24
    || InNetwork(v, 0xF000_0000, 4)         // 240.0.0.0/4
    || InNetwork(v, 0xFFFF_FFFF, 32)        // 255.255.255.255/32
  }

  /** `ipaddress.ip_address(t).is_private`. */
  predicate IsPrivateAddress(t: string) {
    var v := ParseIPv4(t);
    v.Some? && IsPrivateIPv4(v.value)
  }

  /** An IPv4 literal begins with a digit: it is never empty and never a '*' marker. */
  lemma IpLiteralStartsWithDigit(t: string)
    requires IsIpLiteral(t)
    ensures |t| > 0 && IsDigit(t[0])
  {
    var a := DottedOctetAt(t, 0);
    assert Span(t, 0, |t|, Digit) > 0;
  }

  /** Powers of two multiply by adding exponents. */
  lemma {:induction false} Pow2Add(a: nat, b: nat)
    ensures Pow2(a + b) == Pow2(a) * Pow2(b)
  {
    if a > 0 {
      Pow2Add(a - 1, b);
    }
  }

  /** The network sizes the private-range table uses. */
  lemma Pow2Values()
    ensures Pow2(0) == 1 && Pow2(1) == 2 && Pow2(3) == 8 && Pow2(8) == 0x100 && Pow2(16) == 0x1_0000
    ensures Pow2(17) == 0x2_0000 && Pow2(20) == 0x10_0000 && Pow2(24) == 0x100_0000 && Pow2(28) == 0x1000_0000
  {
    assert Pow2(4) == 16;
    Pow2Add(4, 4);
    Pow2Add(8, 8);
    Pow2Add(16, 1);
    Pow2Add(16, 4);
    Pow2Add(16, 8);
    Pow2Add(24, 4);
  }

  /** `float()` on the decimal forms a reply time or a coordinate takes. */
  lemma ParseFloatAccepts()
    ensures ParseFloat("23.5") == Some(23.5) && ParseFloat("-6.25") == Some(-6.25)
    ensures ParseFloat(".5") == Some(0.5) && ParseFloat("7") == Some(7.0)
  {
    var a := "23.5";
    assert Span(a, 0, 4, Digit) == 2;
    assert Span(a, 3, 4, Digit) == 4;
    assert DigitsValue(a, 0, 2) == 23;
    assert DigitsValue(a, 3, 4) == 5;
    assert Shift(5.0, 1) == 0.5;
    var b := "-6.25";
    assert Span(b, 1, 5, Digit) == 2;
    assert Span(b, 3, 5, Digit) == 5;
    assert DigitsValue(b, 1, 2) == 6;
    assert DigitsValue(b, 3, 5) == 25;
    assert Shift(25.0, 2) == 0.25;
    var c := ".5";
    assert Span(c, 0, 2, Digit) == 0;
    assert Span(c, 1, 2, Digit) == 2;
    assert DigitsValue(c, 1, 2) == 5;
    assert Span("7", 0, 1, Digit) == 1;
    assert DigitsValue("7", 0, 1) == 7;
  }
  /** `float()` refuses text without a digit or with a second point. */
  lemma ParseFloatRefuses()
    ensures ParseFloat("") == None && ParseFloat(".") == None && ParseFloat("1.2.3") == None && ParseFloat("-") == None
  {
    assert Span(".", 0, 1, Digit) == 0;
    assert Span(".", 1, 1, Digit) == 1;
    var d := "1.2.3";
    assert Span(d, 0, 5, Digit) == 1;
    assert Span(d, 2, 5, Digit) == 3;
    assert Span("-", 1, 1, Digit) == 1;
  }
  /** `ip_address` accepts a dotted quad of octets up to 255 without leading
      zeros, and refuses anything else. */
  lemma IpLiteralExamples()
    ensures ParseIPv4("8.8.8.8") == Some(0x0808_0808)
    ensures !IsIpLiteral("256.1.1.1") && !IsIpLiteral("01.2.3.4") && !IsIpLiteral("1.2.3") && !IsIpLiteral("*")
  {
    PublicAddressParses();
    MalformedAddressesRefused();
  }

  lemma PublicAddressParses()
    ensures ParseIPv4("8.8.8.8") == Some(0x0808_0808)
  {
    var s := "8.8.8.8";
    assert Span(s, 0, 7, Digit) == 1;
    assert DottedOctetAt(s, 0) == Some((8, 2));
    assert Span(s, 2, 7, Digit) == 3;
    assert DottedOctetAt(s, 2) == Some((8, 4));
    assert Span(s, 4, 7, Digit) == 5;
    assert DottedOctetAt(s, 4) == Some((8, 6));
    assert Span(s, 6, 7, Digit) == 7;
    assert OctetAt(s, 6) == Some((8, 7));
  }

  lemma MalformedAddressesRefused()
    ensures !IsIpLiteral("256.1.1.1") && !IsIpLiteral("01.2.3.4") && !IsIpLiteral("1.2.3") && !IsIpLiteral("*")
  {
    var t := "256.1.1.1";
    assert Span(t, 0, 9, Digit) == 3;
    assert DigitsValue(t, 0, 3) == 256;
    var u := "01.2.3.4";
    assert Span(u, 0, 8, Digit) == 2;
    var w := "1.2.3";
    assert Span(w, 0, 5, Digit) == 1;
    assert Span(w, 2, 5, Digit) == 3;
    assert Span(w, 4, 5, Digit) == 5;
    assert OctetAt(w, 4) == Some((3, 5));
    assert Span("*", 0, 1, Digit) == 0;
  }
  /** Two addresses from the private ranges, read as 32-bit values. */
  lemma LocalAddressesParse()
    ensures ParseIPv4("192.168.1.1") == Some(0xC0A8_0101) && ParseIPv4("10.0.0.1") == Some(0x0A00_0001)
  {
    HomeAddressParses();
    TenAddressParses();
  }

  lemma HomeAddressParses()
    ensures ParseIPv4("192.168.1.1") == Some(0xC0A8_0101)
  {
    var s := "192.168.1.1";
    assert Span(s, 0, 11, Digit) == 3;
    assert DigitsValue(s, 0, 3) == 192;
    assert DottedOctetAt(s, 0) == Some((192, 4));
    assert Span(s, 4, 11, Digit) == 7;
    assert DigitsValue(s, 4, 7) == 168;
    assert DottedOctetAt(s, 4) == Some((168, 8));
    assert Span(s, 8, 11, Digit) == 9;
    assert DottedOctetAt(s, 8) == Some((1, 10));
    assert Span(s, 10, 11, Digit) == 11;
    assert OctetAt(s, 10) == Some((1, 11));
  }

  lemma TenAddressParses()
    ensures ParseIPv4("10.0.0.1") == Some(0x0A00_0001)
  {
    var t := "10.0.0.1";
    assert Span(t, 0, 8, Digit) == 2;
    assert DigitsValue(t, 0, 2) == 10;
    assert DottedOctetAt(t, 0) == Some((10, 3));
    assert Span(t, 3, 8, Digit) == 4;
    assert DottedOctetAt(t, 3) == Some((0, 5));
    assert Span(t, 5, 8, Digit) == 6;
    assert DottedOctetAt(t, 5) == Some((0, 7));
    assert Span(t, 7, 8, Digit) == 8;
    assert OctetAt(t, 7) == Some((1, 8));
  }

  /** `is_private` on the local networks hops usually come from, and on a public address. */
  lemma PrivateAddressExamples()
    ensures IsPrivateAddress("192.168.1.1") && IsPrivateAddress("10.0.0.1")
    ensures !IsPrivateAddress("8.8.8.8")
  {
    LocalAddressesParse();
    IpLiteralExamples();
    PrivateValues();
  }

  /** The table on the values of 192.168.1.1, 10.0.0.1 and 8.8.8.8. */
  lemma PrivateValues()
    ensures IsPrivateIPv4(0xC0A8_0101) && IsPrivateIPv4(0x0A00_0001) && !IsPrivateIPv4(0x0808_0808)
  {
    Pow2Values();
  }
}
