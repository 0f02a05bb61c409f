/** Protocol version negotiation and capability intersection. */
module Versioning {
  import opened Types

  datatype Version = Version(major: nat, minor: nat)

  datatype Negotiated = Negotiated(version: string, degraded: bool, capabilities: seq<string>)

  datatype VersionError = InvalidVersion | Incompatible

  // ---------- decimal numbers and version strings ----------

  predicate IsDigit(c: char) {
    '0' <= c <= '9'
  }

  function ParseNat(s: string): Option<nat> {
    if s == "" then None
    else if !IsDigit(s[|s| - 1]) then None
    else
      var digit := (s[|s| - 1] as int) - ('0' as int);
      if |s| == 1 then Some(digit)
      else match ParseNat(s[..|s| - 1])
        case None => None
        case Some(n) => Some(10 * n + digit)
  }

  function DigitChar(d: nat): char
    requires d < 10
  {
    ('0' as int + d) as char
  }

  function FormatNat(n: nat): (s: string)
    ensures s != "" && forall c :: c in s ==> IsDigit(c)
  {
    if n < 10 then [DigitChar(n)] else FormatNat(n / 10) + [DigitChar(n % 10)]
  }

  /** The text before and after the first '.', if there is one. */
  function SplitDot(s: string): Option<(string, string)> {
    if s == "" then None
    else if s[0] == '.' then Some(("", s[1..]))
    else match SplitDot(s[1..])
      case None => None
      case Some((a, b)) => Some(([s[0]] + a, b))
  }

  function Parse(s: string): Result<Version, VersionError> {
    match SplitDot(s)
    case None => Err(InvalidVersion)
    case Some((a, b)) =>
      match (ParseNat(a), ParseNat(b))
      case (Some(major), Some(minor)) => Ok(Version(major, minor))
      case _ => Err(InvalidVersion)
  }

  function Format(v: Version): string {
    FormatNat(v.major) + "." + FormatNat(v.minor)
  }

  lemma {:induction false} ParseFormatNat(n: nat)
    ensures ParseNat(FormatNat(n)) == Some(n)
  {
    if n >= 10 {
      ParseFormatNat(n / 10);
      var s := FormatNat(n);
      assert s[..|s| - 1] == FormatNat(n / 10);
    }
  }

  lemma {:induction false} SplitFirstDot(a: string, b: string)
    requires '.' !in a
    ensures SplitDot(a + "." + b) == Some((a, b))
  {
    var s := a + "." + b;
    if a == "" {
      assert s[1..] == b;
    } else {
      assert s[1..] == a[1..] + "." + b;
      SplitFirstDot(a[1..], b);
      assert [a[0]] + a[1..] == a;
    }
  }

  /** Formatting a version and parsing it back gives the version. */
  lemma ParseFormat(v: Version)
    ensures Parse(Format(v)) == Ok(v)
  {
    SplitFirstDot(FormatNat(v.major), FormatNat(v.minor));
    ParseFormatNat(v.major);
    ParseFormatNat(v.minor);
  }

  function DigitOf(c: char): nat
    requires IsDigit(c)
  {
    c as int - '0' as int
  }

  function Power10(n: nat): nat {
    if n == 0 then 1 else 10 * Power10(n - 1)
  }

  /** The number a text of digits writes: the first digit counts by the length of the rest. */
  function Written(s: string): nat
    requires forall c :: c in s ==> IsDigit(c)
  {
    if s == "" then 0 else DigitOf(s[0]) * Power10(|s| - 1) + Written(s[1..])
  }

  lemma {:induction false} WrittenSnoc(s: string, c: char)
    requires (forall x :: x in s ==> IsDigit(x)) && IsDigit(c)
    ensures forall x :: x in s + [c] ==> IsDigit(x)
    ensures Written(s + [c]) == 10 * Written(s) + DigitOf(c)
  {
    if s != "" {
      assert (s + [c])[1..] == s[1..] + [c];
      WrittenSnoc(s[1..], c);
      hide IsDigit, DigitOf;
      TenTimes(DigitOf(s[0]), Power10(|s| - 1));
    } else {
      assert (s + [c])[1..] == "";
    }
  }

  lemma TenTimes(d: nat, p: nat)
    ensures d * (10 * p) == 10 * (d * p)
  {
  }

  /** A text is read as a number exactly if it is a nonempty text of digits, and then as the one it
      writes. */
  lemma {:induction false} ParseNatIff(s: string)
    ensures ParseNat(s).Some? <==> s != "" && forall c :: c in s ==> IsDigit(c)
    ensures ParseNat(s).Some? ==> ParseNat(s).value == Written(s)
  {
    if s != "" {
      var init, last := s[..|s| - 1], s[|s| - 1];
      assert s == init + [last];
      assert forall c :: c in s <==> c in init || c == last;
      ParseNatIff(init);
      if forall c :: c in s ==> IsDigit(c) {
        WrittenSnoc(init, last);
      }
    }
  }

  lemma {:induction false} SplitDotIff(s: string, a: string, b: string)
    ensures SplitDot(s) == Some((a, b)) <==> s == a + "." + b && '.' !in a
  {
    if s == a + "." + b && '.' !in a {
      SplitFirstDot(a, b);
    }
    if SplitDot(s) == Some((a, b)) {
      if s[0] != '.' {
        SplitDotIff(s[1..], a[1..], b);
        assert a == [s[0]] + a[1..];
        assert s == [s[0]] + s[1..];
      } else {
        assert s == "." + s[1..];
      }
    }
  }

  /** The text is a dot between two numbers, the first dot there is. */
  predicate Reads(s: string, a: string, b: string, v: Version) {
    s == a + "." + b && '.' !in a && ParseNat(a) == Some(v.major) && ParseNat(b) == Some(v.minor)
  }

  /** A version is read exactly from two numbers around the first dot. */
  lemma ParseIff(s: string, v: Version)
    ensures Parse(s) == Ok(v) <==> exists a, b :: Reads(s, a, b, v)
  {
    hide ParseNat, SplitDot;
    if Parse(s) == Ok(v) {
      var (a, b) := SplitDot(s).value;
      SplitDotIff(s, a, b);
      assert Reads(s, a, b, v);
    }
    if a, b :| Reads(s, a, b, v) {
      SplitDotIff(s, a, b);
      assert Parse(s) == Ok(Version(v.major, v.minor));
    }
  }

  // ---------- sorted sets of strings ----------

  predicate Less(a: string, b: string) {
    if b == "" then false
    else if a == "" then true
    else a[0] < b[0] || (a[0] == b[0] && Less(a[1..], b[1..]))
  }

  lemma {:induction false} LessIsTotal(a: string, b: string)
    ensures Less(a, b) || a == b || Less(b, a)
  {
    if a != "" && b != "" && a[0] == b[0] {
      LessIsTotal(a[1..], b[1..]);
      assert a == [a[0]] + a[1..] && b == [b[0]] + b[1..];
    }
  }

  lemma {:induction false} LessIsTransitive(a: string, b: string, c: string)
    requires Less(a, b) && Less(b, c)
    ensures Less(a, c)
  {
    if a != "" && a[0] == b[0] && b[0] == c[0] {
      LessIsTransitive(a[1..], b[1..], c[1..]);
    }
  }

  /** The texts agree before k; there a ends, or has the smaller character. */
  predicate LessAt(a: string, b: string, k: int) {
    && 0 <= k <= |a| && k < |b| && a[..k] == b[..k]
    && (k == |a| || a[k] < b[k])
  }

  /** The order is that of characters at the first difference, a prefix coming first. */
  lemma {:induction false} LessIff(a: string, b: string)
    ensures Less(a, b) <==> exists k :: LessAt(a, b, k)
  {
    if a == "" || b == "" || a[0] != b[0] {
      if Less(a, b) {
        assert LessAt(a, b, 0);
      }
      if k :| LessAt(a, b, k) {
        assert k > 0 ==> a[..k][0] == b[..k][0];
      }
    } else {
      LessIff(a[1..], b[1..]);
      if Less(a, b) {
        var k :| LessAt(a[1..], b[1..], k);
        assert a[..k + 1] == [a[0]] + a[1..][..k] && b[..k + 1] == [b[0]] + b[1..][..k];
        assert LessAt(a, b, k + 1);
      }
      if k :| LessAt(a, b, k) {
        assert a[1..][..k - 1] == a[..k][1..] && b[1..][..k - 1] == b[..k][1..];
        assert LessAt(a[1..], b[1..], k - 1);
      }
    }
  }

  ghost predicate Increasing(s: seq<string>) {
    forall i, j :: 0 <= i < j < |s| ==> Less(s[i], s[j])
  }

  function Insert(s: seq<string>, x: string): seq<string> {
    if s == [] then [x]
    else if s[0] == x then s
    else if Less(x, s[0]) then [x] + s
    else [s[0]] + Insert(s[1..], x)
  }

  lemma {:induction false} InsertKeepsOrder(s: seq<string>, x: string)
    requires Increasing(s)
    ensures Increasing(Insert(s, x))
    ensures forall y :: y in Insert(s, x) <==> y in s || y == x
  {
    if s != [] && s[0] != x {
      if Less(x, s[0]) {
        forall j | 0 < j < |s| ensures Less(x, s[j]) { LessIsTransitive(x, s[0], s[j]); }
      } else {
        LessIsTotal(x, s[0]);
        InsertKeepsOrder(s[1..], x);
        var r := Insert(s[1..], x);
        forall j | 0 <= j < |r|
          ensures Less(s[0], r[j])
        {
          assert r[j] in s[1..] || r[j] == x;
        }
      }
    }
  }

  /** `sorted(set(a) & set(b))`. */
  function CommonSorted(a: seq<string>, b: seq<string>): seq<string> {
    if a == [] then []
    else if a[0] in b then Insert(CommonSorted(a[1..], b), a[0])
    else CommonSorted(a[1..], b)
  }

  lemma {:induction false} CommonSortedIsIntersection(a: seq<string>, b: seq<string>)
    ensures Increasing(CommonSorted(a, b))
    ensures forall x :: x in CommonSorted(a, b) <==> x in a && x in b
  {
    if a != [] {
      CommonSortedIsIntersection(a[1..], b);
      if a[0] in b {
        InsertKeepsOrder(CommonSorted(a[1..], b), a[0]);
      }
    }
  }

  // ---------- negotiation ----------

  function Negotiate(server: string, client: string, serverCaps: seq<string>, clientCaps: seq<string>)
    : Result<Negotiated, VersionError>
  {
    match Parse(server)
    case Err(e) => Err(e)
    case Ok(s) =>
      match Parse(client)
      case Err(e) => Err(e)
      case Ok(c) =>
        if s.major != c.major then Err(Incompatible)
        else
          var version := Format(Version(s.major, if s.minor <= c.minor then s.minor else c.minor));
          Ok(Negotiated(version, version != server || version != client, CommonSorted(serverCaps, clientCaps)))
  }

  /** A version the server may have agreed to: its own major, a minor no larger than its own,
      and capabilities that are an increasing (so duplicate-free) list of its own. */
  ghost predicate Agreeable(version: string, capabilities: seq<string>, server: string, serverCaps: seq<string>) {
    && Parse(server).Ok?
    && Parse(version).Ok?
    && Parse(version).value.major == Parse(server).value.major
    && Parse(version).value.minor <= Parse(server).value.minor
    && Increasing(capabilities)
    && forall x :: x in capabilities ==> x in serverCaps
  }

  /** Negotiation fails exactly on unparsable or different major versions, and otherwise agrees
      on the lower minor and the common capabilities. */
  lemma NegotiatedIsAgreeable(server: string, client: string, serverCaps: seq<string>, clientCaps: seq<string>)
    ensures var r := Negotiate(server, client, serverCaps, clientCaps);
      && (r.Ok? <==> Parse(server).Ok? && Parse(client).Ok? && Parse(server).value.major == Parse(client).value.major)
      && (r.Ok? ==>
            && Agreeable(r.value.version, r.value.capabilities, server, serverCaps)
            && Parse(r.value.version).value.minor <= Parse(client).value.minor
            && (Parse(r.value.version) == Parse(server) || Parse(r.value.version) == Parse(client))
            && (forall x :: x in r.value.capabilities <==> x in serverCaps && x in clientCaps))
  {
    CommonSortedIsIntersection(serverCaps, clientCaps);
    if Parse(server).Ok? && Parse(client).Ok? {
      var s, c := Parse(server).value, Parse(client).value;
      ParseFormat(Version(s.major, if s.minor <= c.minor then s.minor else c.minor));
    }
  }

  /** An agreement is not degraded exactly if both sides offer the same text, written as versions are
      written. */
  lemma DegradedIff(server: string, client: string, serverCaps: seq<string>, clientCaps: seq<string>)
    requires Negotiate(server, client, serverCaps, clientCaps).Ok?
    ensures Negotiate(server, client, serverCaps, clientCaps).value.degraded <==>
              !(server == client && exists v :: server == Format(v))
  {
    var s, c := Parse(server).value, Parse(client).value;
    var agreed := Version(s.major, if s.minor <= c.minor then s.minor else c.minor);
    if server == client && exists v :: server == Format(v) {
      var v :| server == Format(v);
      ParseFormat(v);
    }
    hide Format, Parse, CommonSorted;
  }
}
