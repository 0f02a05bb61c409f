/** Base64 as the codec uses it: the encoder of section 4 of RFC 4648, and a lenient decoder that
    skips characters outside the alphabet and stops at a complete padding. */
module Base64 {
  import opened Types

  type Byte = b: int | 0 <= b < 256

  type Bytes = seq<Byte>

  datatype PaddingError = IncorrectPadding

  // ---------- the alphabet ----------

  function CharOf(i: nat): char
    requires i < 64
  {
    if i < 26 then 'A' + i as char
    else if i < 52 then 'a' + (i - 26) as char
    else if i < 62 then '0' + (i - 52) as char
    else if i == 62 then '+'
    else '/'
  }

  function ValueOf(c: char): (r: Option<nat>)
    ensures r.Some? ==> r.value < 64
  {
    if 'A' <= c <= 'Z' then Some(c as int - 'A' as int)
    else if 'a' <= c <= 'z' then Some(c as int - 'a' as int + 26)
    else if '0' <= c <= '9' then Some(c as int - '0' as int + 52)
    else if c == '+' then Some(62)
    else if c == '/' then Some(63)
    else None
  }

  lemma AlphabetInverts(i: nat)
    requires i < 64
    ensures ValueOf(CharOf(i)) == Some(i) && CharOf(i) != '='
  {
  }

  // ---------- encoding ----------

  /** Three bytes as four characters. */
  function Group(a: Byte, b: Byte, c: Byte): (r: string)
    ensures |r| == 4
  {
    [CharOf(a / 4), CharOf(a % 4 * 16 + b / 16), CharOf(b % 16 * 4 + c / 64), CharOf(c % 64)]
  }

  function Encode(s: Bytes): (r: string) {
    if s == [] then ""
    else if |s| == 1 then [CharOf(s[0] / 4), CharOf(s[0] % 4 * 16), '=', '=']
    else if |s| == 2 then [CharOf(s[0] / 4), CharOf(s[0] % 4 * 16 + s[1] / 16), CharOf(s[1] % 16 * 4), '=']
    else Group(s[0], s[1], s[2]) + Encode(s[3..])
  }

  // ---------- decoding ----------

  /** The decoder's state: how many characters of the current group it has read, the bits left
      over from them, and how many '=' it has just seen. */
  datatype Scan = Scan(quad: nat, left: nat, pads: nat) {
    predicate Valid() {
      quad < 4 && left < (if quad == 1 then 64 else if quad == 2 then 16 else if quad == 3 then 4 else 1)
    }
  }

  const START := Scan(0, 0, 0)

  /** The byte, if any, and the state after a character of the alphabet. */
  function Shift(st: Scan, v: nat): (r: (seq<Byte>, Scan))
    requires st.Valid() && v < 64
    ensures r.1.Valid()
  {
    if st.quad == 0 then ([], Scan(1, v, 0))
    else if st.quad == 1 then ([st.left * 4 + v / 16], Scan(2, v % 16, 0))
    else if st.quad == 2 then ([st.left * 16 + v / 4], Scan(3, v % 4, 0))
    else ([st.left * 64 + v], START)
  }

  function DecodeFrom(s: string, st: Scan): Result<Bytes, PaddingError>
    requires st.Valid()
  {
    if s == "" then (if st.quad == 0 then Ok([]) else Err(IncorrectPadding))
    else if s[0] == '=' then
      if st.quad >= 2 && st.quad + st.pads + 1 >= 4 then Ok([])
      else DecodeFrom(s[1..], if st.quad >= 2 then st.(pads := st.pads + 1) else st)
    else match ValueOf(s[0])
      case None => DecodeFrom(s[1..], st)
      case Some(v) =>
        var (out, next) := Shift(st, v);
        match DecodeFrom(s[1..], next)
        case Ok(rest) => Ok(out + rest)
        case Err(e) => Err(e)
  }

  function Decode(s: string): Result<Bytes, PaddingError> {
    DecodeFrom(s, START)
  }

  // ---------- what the decoder accepts ----------

  /** The characters the decoder looks at. */
  function Relevant(s: string): string {
    if s == "" then ""
    else (if s[0] == '=' || ValueOf(s[0]).Some? then [s[0]] else "") + Relevant(s[1..])
  }

  /** Characters outside the alphabet, wherever they stand, make no difference. */
  lemma {:induction false} IgnoresOthers(s: string, st: Scan)
    requires st.Valid()
    ensures DecodeFrom(s, st) == DecodeFrom(Relevant(s), st)
  {
    if s != "" {
      var rest := Relevant(s[1..]);
      if s[0] == '=' {
        assert Relevant(s)[1..] == rest;
        IgnoresOthers(s[1..], if st.quad >= 2 then st.(pads := st.pads + 1) else st);
      } else if ValueOf(s[0]).Some? {
        assert Relevant(s)[1..] == rest;
        IgnoresOthers(s[1..], Shift(st, ValueOf(s[0]).value).1);
      } else {
        assert Relevant(s) == rest;
        IgnoresOthers(s[1..], st);
      }
    }
  }

  /** How many bytes n characters decode to, of which the first `quad` were read before. */
  function Yield(quad: nat, n: nat): int {
    n / 4 * 3 - (if quad <= 1 then 0 else quad - 1)
  }

  lemma YieldOfOne(quad: nat, n: nat)
    requires quad < 4 && n > quad && n % 4 == 0
    ensures quad < 3 ==> Yield(quad, n) == (if quad == 0 then 0 else 1) + Yield(quad + 1, n)
    ensures quad == 3 ==> Yield(quad, n) == 1 + Yield(0, n - 4)
  {
  }

  lemma TakeFirst(s: string, st: Scan)
    requires st.Valid() && s != "" && ValueOf(s[0]).Some?
    ensures var (out, next) := Shift(st, ValueOf(s[0]).value);
      && |out| == (if st.quad == 0 then 0 else 1) && next.quad == (if st.quad == 3 then 0 else st.quad + 1)
      && DecodeFrom(s, st) == match DecodeFrom(s[1..], next)
                              case Ok(rest) => Ok(out + rest)
                              case Err(e) => Err(e)
  {
    assert s[0] != '=';
  }

  /** Text of alphabet characters without padding decodes iff their number, with those read
      before, is a multiple of 4, to three bytes for each group of four. */
  lemma {:induction false} UnpaddedDecodes(s: string, st: Scan)
    requires st.Valid() && forall i :: 0 <= i < |s| ==> ValueOf(s[i]).Some?
    ensures DecodeFrom(s, st).Ok? <==> (st.quad + |s|) % 4 == 0
    ensures DecodeFrom(s, st).Ok? ==> |DecodeFrom(s, st).value| == Yield(st.quad, st.quad + |s|)
  {
    if s == "" {
    } else {
      hide ValueOf, Shift, Yield, DecodeFrom;
      TakeFirst(s, st);
      var next := Shift(st, ValueOf(s[0]).value).1;
      UnpaddedDecodes(s[1..], next);
      NextGroup(st.quad, |s|);
      if (st.quad + |s|) % 4 == 0 {
        YieldOfOne(st.quad, st.quad + |s|);
      }
    }
  }

  lemma NextGroup(quad: nat, n: nat)
    requires quad < 4 && n > 0
    ensures quad < 3 ==> (quad + 1 + (n - 1)) % 4 == (quad + n) % 4
    ensures quad == 3 ==> (n - 1) % 4 == (quad + n) % 4
  {
  }

  // ---------- the round trip ----------

  lemma TakeChar(i: nat, rest: string, st: Scan)
    requires i < 64 && st.Valid()
    ensures var (out, next) := Shift(st, i);
      DecodeFrom([CharOf(i)] + rest, st) == match DecodeFrom(rest, next)
                                            case Ok(r) => Ok(out + r)
                                            case Err(e) => Err(e)
  {
    AlphabetInverts(i);
    assert ([CharOf(i)] + rest)[1..] == rest;
  }

  /** Reading back the characters of a group yields its bytes, one by one. */
  lemma GroupShifts(a: Byte, b: Byte, c: Byte)
    ensures Shift(START, a / 4) == ([], Scan(1, a / 4, 0))
    ensures Shift(Scan(1, a / 4, 0), a % 4 * 16 + b / 16) == ([a], Scan(2, b / 16, 0))
    ensures Shift(Scan(2, b / 16, 0), b % 16 * 4 + c / 64) == ([b], Scan(3, c / 64, 0))
    ensures Shift(Scan(3, c / 64, 0), c % 64) == ([c], START)
  {
  }

  lemma TakeGroup(a: Byte, b: Byte, c: Byte, rest: string)
    requires Decode(rest).Ok?
    ensures Decode(Group(a, b, c) + rest) == Ok([a, b, c] + Decode(rest).value)
  {
    GroupShifts(a, b, c);
    hide CharOf, DecodeFrom, Shift;
    var i, j, k, l := a / 4, a % 4 * 16 + b / 16, b % 16 * 4 + c / 64, c % 64;
    var t3 := [CharOf(l)] + rest;
    var t2 := [CharOf(k)] + t3;
    var t1 := [CharOf(j)] + t2;
    assert Group(a, b, c) + rest == [CharOf(i)] + t1;
    TakeChar(l, rest, Scan(3, c / 64, 0));
    TakeChar(k, t3, Scan(2, b / 16, 0));
    TakeChar(j, t2, Scan(1, i, 0));
    TakeChar(i, t1, START);
    var r := Decode(rest).value;
    assert [] + ([a] + ([b] + ([c] + r))) == [a, b, c] + r;
  }

  /** Padding ends the text after two or three characters of a group. */
  lemma TakePadding(left: nat)
    requires left < 4
    ensures DecodeFrom("==", Scan(2, left, 0)) == Ok([])
    ensures DecodeFrom("=", Scan(3, left, 0)) == Ok([])
  {
    assert "=="[1..] == "=";
  }

  lemma OneByte(a: Byte)
    ensures Decode(Encode([a])) == Ok([a])
  {
    GroupShifts(a, 0, 0);
    TakePadding(0);
    hide CharOf, DecodeFrom, Shift;
    var t1 := [CharOf(a % 4 * 16)] + "==";
    assert Encode([a]) == [CharOf(a / 4)] + t1;
    TakeChar(a % 4 * 16, "==", Scan(1, a / 4, 0));
    TakeChar(a / 4, t1, START);
    assert [] + ([a] + []) == [a];
  }

  lemma TwoBytes(a: Byte, b: Byte)
    ensures Decode(Encode([a, b])) == Ok([a, b])
  {
    GroupShifts(a, b, 0);
    TakePadding(0);
    hide CharOf, DecodeFrom, Shift;
    var t2 := [CharOf(b % 16 * 4)] + "=";
    var t1 := [CharOf(a % 4 * 16 + b / 16)] + t2;
    assert Encode([a, b]) == [CharOf(a / 4)] + t1;
    TakeChar(b % 16 * 4, "=", Scan(2, b / 16, 0));
    TakeChar(a % 4 * 16 + b / 16, t2, Scan(1, a / 4, 0));
    TakeChar(a / 4, t1, START);
    assert [] + ([a] + ([b] + [])) == [a, b];
  }

  /** Decoding an encoded byte string gives it back, whatever its length. */
  lemma {:induction false} RoundTrip(s: Bytes)
    ensures Decode(Encode(s)) == Ok(s)
  {
    if |s| == 1 {
      assert s == [s[0]];
      OneByte(s[0]);
    } else if |s| == 2 {
      assert s == [s[0], s[1]];
      TwoBytes(s[0], s[1]);
    } else if |s| > 2 {
      RoundTrip(s[3..]);
      TakeGroup(s[0], s[1], s[2], Encode(s[3..]));
      assert [s[0], s[1], s[2]] + s[3..] == s;
    }
  }

  /** Encoded text is ASCII. */
  predicate IsAscii(s: string) {
    forall c :: c in s ==> c as int < 128
  }

  lemma {:induction false} EncodedIsAscii(s: Bytes)
    ensures IsAscii(Encode(s))
  {
    if |s| > 2 {
      EncodedIsAscii(s[3..]);
    }
  }

  // ---------- the standard ----------

  /** The n lowest bits of v, highest first. */
  function Bits(v: nat, n: nat): (r: seq<nat>)
    ensures |r| == n
  {
    if n == 0 then [] else Bits(v / 2, n - 1) + [v % 2]
  }

  function BytesBits(s: Bytes): seq<nat> {
    if s == [] then [] else Bits(s[0], 8) + BytesBits(s[1..])
  }

  /** The bits that the characters before the padding stand for, each by its place in the alphabet. */
  function TextBits(s: string): seq<nat> {
    if s == "" || s[0] == '=' then []
    else match ValueOf(s[0])
      case Some(v) => Bits(v, 6) + TextBits(s[1..])
      case None => TextBits(s[1..])
  }

  /** The alphabet of table 1 in section 4 of RFC 4648: runs of consecutive characters from 'A' to 'Z',
      'a' to 'z' and '0' to '9', then '+' and '/'. */
  lemma AlphabetIsStandard(i: nat)
    requires i < 64
    ensures CharOf(0) == 'A' && CharOf(25) == 'Z' && CharOf(26) == 'a' && CharOf(51) == 'z'
    ensures CharOf(52) == '0' && CharOf(61) == '9' && CharOf(62) == '+' && CharOf(63) == '/'
    ensures i < 61 && i != 25 && i != 51 ==> CharOf(i + 1) == CharOf(i) + 1 as char
  {
  }

  function Power2(n: nat): (r: nat)
    ensures r > 0
  {
    if n == 0 then 1 else 2 * Power2(n - 1)
  }

  /** High and low bits. */
  lemma {:induction false} SplitBits(high: nat, low: nat, n: nat, k: nat)
    requires low < Power2(k)
    ensures Bits(high * Power2(k) + low, n + k) == Bits(high, n) + Bits(low, k)
    decreases k
  {
    if k > 0 {
      var p := Power2(k - 1);
      var v := high * Power2(k) + low;
      assert high * (2 * p) == 2 * (high * p);
      assert v / 2 == high * p + low / 2 && v % 2 == low % 2;
      SplitBits(high, low / 2, n, k - 1);
      assert Bits(v, n + k) == Bits(v / 2, n + k - 1) + [v % 2];
    } else {
      assert Bits(low, 0) == [];
    }
  }

  lemma Powers()
    ensures Power2(2) == 4 && Power2(4) == 16 && Power2(6) == 64
  {
    assert Power2(1) == 2 && Power2(3) == 8 && Power2(5) == 32;
  }

  /** The bits of three bytes, regrouped in sixes. */
  lemma GroupBits(a: Byte, b: Byte, c: Byte)
    ensures Bits(a, 8) + Bits(b, 8) + Bits(c, 8) ==
              Bits(a / 4, 6) + Bits(a % 4 * 16 + b / 16, 6) + Bits(b % 16 * 4 + c / 64, 6) + Bits(c % 64, 6)
  {
    hide Bits;
    PieceBits(a / 4, a % 4, b / 16, b % 16, c / 64, c % 64);
    assert a / 4 * 4 + a % 4 == a;
    assert b / 16 * 16 + b % 16 == b;
    assert c / 64 * 64 + c % 64 == c;
  }

  lemma PieceBits(a1: nat, a2: nat, b1: nat, b2: nat, c1: nat, c2: nat)
    requires a2 < 4 && b1 < 16 && b2 < 16 && c1 < 4 && c2 < 64
    ensures Bits(a1 * 4 + a2, 8) + Bits(b1 * 16 + b2, 8) + Bits(c1 * 64 + c2, 8) ==
              Bits(a1, 6) + Bits(a2 * 16 + b1, 6) + Bits(b2 * 4 + c1, 6) + Bits(c2, 6)
  {
    hide Bits;
    Powers();
    SplitBits(a1, a2, 6, 2);
    SplitBits(a2, b1, 2, 4);
    SplitBits(b1, b2, 4, 4);
    SplitBits(b2, c1, 4, 2);
    SplitBits(c1, c2, 2, 6);
    hide Power2;
    Regroup(Bits(a1, 6), Bits(a2, 2), Bits(b1, 4), Bits(b2, 4), Bits(c1, 2), Bits(c2, 6));
  }

  lemma Regroup(a1: seq<nat>, a2: seq<nat>, b1: seq<nat>, b2: seq<nat>, c1: seq<nat>, c2: seq<nat>)
    ensures (a1 + a2) + (b1 + b2) + (c1 + c2) == a1 + (a2 + b1) + (b2 + c1) + c2
  {
  }

  lemma OneText(i: nat, rest: string)
    requires i < 64
    ensures TextBits([CharOf(i)] + rest) == Bits(i, 6) + TextBits(rest)
  {
    AlphabetInverts(i);
    assert ([CharOf(i)] + rest)[1..] == rest;
  }

  lemma FourText(i: nat, j: nat, k: nat, l: nat, rest: string)
    requires i < 64 && j < 64 && k < 64 && l < 64
    ensures TextBits([CharOf(i), CharOf(j), CharOf(k), CharOf(l)] + rest) ==
              Bits(i, 6) + Bits(j, 6) + Bits(k, 6) + Bits(l, 6) + TextBits(rest)
  {
    hide CharOf, Bits, TextBits;
    OneText(l, rest);
    OneText(k, [CharOf(l)] + rest);
    OneText(j, [CharOf(k)] + ([CharOf(l)] + rest));
    OneText(i, [CharOf(j)] + ([CharOf(k)] + ([CharOf(l)] + rest)));
    assert [CharOf(i), CharOf(j), CharOf(k), CharOf(l)] + rest == [CharOf(i)] + ([CharOf(j)] + ([CharOf(k)] + ([CharOf(l)] + rest)));
  }

  lemma TwoText(i: nat, j: nat)
    requires i < 64 && j < 64
    ensures TextBits([CharOf(i), CharOf(j)] + "==") == Bits(i, 6) + Bits(j, 6)
  {
    assert TextBits("==") == [];
    hide CharOf, Bits, TextBits;
    OneText(j, "==");
    OneText(i, [CharOf(j)] + "==");
    assert [CharOf(i), CharOf(j)] + "==" == [CharOf(i)] + ([CharOf(j)] + "==");
    assert Bits(j, 6) + [] == Bits(j, 6);
  }

  lemma ThreeText(i: nat, j: nat, k: nat)
    requires i < 64 && j < 64 && k < 64
    ensures TextBits([CharOf(i), CharOf(j)] + ([CharOf(k)] + "=")) == Bits(i, 6) + Bits(j, 6) + Bits(k, 6)
  {
    LastText(k);
    hide CharOf, Bits, TextBits;
    TwoMore(i, j, [CharOf(k)] + "=");
  }

  lemma LastText(k: nat)
    requires k < 64
    ensures TextBits([CharOf(k)] + "=") == Bits(k, 6)
  {
    assert TextBits("=") == [];
    hide CharOf, Bits, TextBits;
    OneText(k, "=");
    assert Bits(k, 6) + [] == Bits(k, 6);
  }

  lemma TwoMore(i: nat, j: nat, rest: string)
    requires i < 64 && j < 64
    ensures TextBits([CharOf(i), CharOf(j)] + rest) == Bits(i, 6) + Bits(j, 6) + TextBits(rest)
  {
    hide CharOf, Bits, TextBits;
    OneText(j, rest);
    OneText(i, [CharOf(j)] + rest);
    assert [CharOf(i), CharOf(j)] + rest == [CharOf(i)] + ([CharOf(j)] + rest);
    Joined(Bits(i, 6), Bits(j, 6), TextBits(rest), []);
  }

  lemma Joined(a: seq<nat>, b: seq<nat>, c: seq<nat>, d: seq<nat>)
    ensures a + (b + (c + d)) == a + b + c + d
    ensures a + (b + c) == a + b + c
  {
  }

  /** How many zero bits fill the last group: enough for a whole number of characters. */
  function Fill(n: nat): nat {
    if n % 3 == 1 then 4 else if n % 3 == 2 then 2 else 0
  }

  /** The encoding as the standard has it: the characters stand for the bits of the bytes, in order,
      filled up with zero bits, and the text with padding to a multiple of four characters. */
  lemma {:induction false} EncodesBits(s: Bytes)
    ensures TextBits(Encode(s)) == BytesBits(s) + Bits(0, Fill(|s|)) && |Encode(s)| == (|s| + 2) / 3 * 4
  {
    hide TextBits, BytesBits, Bits, CharOf, Encode;
    EncodedLength(s);
    if |s| == 0 {
      NothingEncoded();
      assert s == [];
    } else if |s| == 1 {
      OneByteBits(s[0]);
      assert s == [s[0]];
    } else if |s| == 2 {
      TwoBytesBits(s[0], s[1]);
      assert s == [s[0], s[1]];
    } else {
      EncodesBits(s[3..]);
      MoreGroups(s);
    }
  }

  lemma NothingEncoded()
    ensures TextBits(Encode([])) == BytesBits([]) + Bits(0, 0)
  {
  }

  lemma {:induction false} EncodedLength(s: Bytes)
    ensures |Encode(s)| == (|s| + 2) / 3 * 4
  {
    if |s| > 2 {
      EncodedLength(s[3..]);
    }
  }

  lemma GroupText(a: Byte, b: Byte, c: Byte, rest: string)
    ensures TextBits(Group(a, b, c) + rest) == Bits(a, 8) + Bits(b, 8) + Bits(c, 8) + TextBits(rest)
  {
    var i, j, k, l := a / 4, a % 4 * 16 + b / 16, b % 16 * 4 + c / 64, c % 64;
    assert Group(a, b, c) == [CharOf(i), CharOf(j), CharOf(k), CharOf(l)];
    hide CharOf, Bits, TextBits, Group;
    FourText(i, j, k, l, rest);
    GroupBits(a, b, c);
  }

  lemma MoreGroups(s: Bytes)
    requires |s| >= 3 && TextBits(Encode(s[3..])) == BytesBits(s[3..]) + Bits(0, Fill(|s| - 3))
    ensures TextBits(Encode(s)) == BytesBits(s) + Bits(0, Fill(|s|))
  {
    hide Bits, TextBits, BytesBits, Group, CharOf;
    assert Encode(s) == Group(s[0], s[1], s[2]) + Encode(s[3..]) && Fill(|s|) == Fill(|s| - 3);
    hide Encode, Fill;
    GroupText(s[0], s[1], s[2], Encode(s[3..]));
    FirstThree(s);
    Together(TextBits(Encode(s)), Bits(s[0], 8) + Bits(s[1], 8) + Bits(s[2], 8), BytesBits(s[3..]), Bits(0, Fill(|s|)), BytesBits(s));
  }

  lemma Together(text: seq<nat>, group: seq<nat>, rest: seq<nat>, fill: seq<nat>, bits: seq<nat>)
    requires text == group + (rest + fill) && bits == group + rest
    ensures text == bits + fill
  {
  }

  lemma FirstThree(s: Bytes)
    requires |s| >= 3
    ensures BytesBits(s) == Bits(s[0], 8) + Bits(s[1], 8) + Bits(s[2], 8) + BytesBits(s[3..])
  {
    assert s[1..][1..] == s[2..] && s[2..][1..] == s[3..];
    FirstByte(s);
    FirstByte(s[1..]);
    FirstByte(s[2..]);
    hide Bits, BytesBits;
    Joined(Bits(s[0], 8), Bits(s[1], 8), Bits(s[2], 8), BytesBits(s[3..]));
  }

  lemma FirstByte(s: Bytes)
    requires s != []
    ensures BytesBits(s) == Bits(s[0], 8) + BytesBits(s[1..])
  {
    hide Bits;
  }

  lemma OneByteBits(a: Byte)
    ensures TextBits(Encode([a])) == BytesBits([a]) + Bits(0, 4) && |Encode([a])| == 4
  {
    hide CharOf, Bits, TextBits;
    Powers();
    SplitBits(a / 4, a % 4, 6, 2);
    SplitBits(a % 4, 0, 2, 4);
    assert a / 4 * 4 + a % 4 == a;
    hide Power2;
    TwoText(a / 4, a % 4 * 16);
    assert Encode([a]) == [CharOf(a / 4), CharOf(a % 4 * 16)] + "==";
    assert BytesBits([a]) == Bits(a, 8) + BytesBits([]);
  }

  lemma TwoBytesBits(a: Byte, b: Byte)
    ensures TextBits(Encode([a, b])) == BytesBits([a, b]) + Bits(0, 2) && |Encode([a, b])| == 4
  {
    hide CharOf, Bits, TextBits;
    Powers();
    SplitBits(a / 4, a % 4, 6, 2);
    SplitBits(a % 4, b / 16, 2, 4);
    SplitBits(b / 16, b % 16, 4, 4);
    SplitBits(b % 16, 0, 4, 2);
    assert a / 4 * 4 + a % 4 == a;
    assert b / 16 * 16 + b % 16 == b;
    hide Power2;
    ThreeText(a / 4, a % 4 * 16 + b / 16, b % 16 * 4);
    assert Encode([a, b]) == [CharOf(a / 4), CharOf(a % 4 * 16 + b / 16)] + ([CharOf(b % 16 * 4)] + "=");
    assert [a, b][1..] == [b];
    assert BytesBits([b]) == Bits(b, 8) + BytesBits([]);
    assert BytesBits([a, b]) == Bits(a, 8) + BytesBits([b]);
  }
}
