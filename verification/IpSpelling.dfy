/**
  What the comparison makes of the spelling of a word: the case of its letters and the zeros
  that begin its groups do not matter, and nothing else is forgotten. This fixes the value of
  every digit, group and octet without naming one.
 */
module IpSpelling {
  import opened Wrappers
  import opened IpGrammar
  import opened IpReading
  import opened IpWords
  import opened IpParser
  import opened IpAddress
  import opened IpUtils

  // -------- lower case --------

  function LowerChar(c: char): char {
    if 'A' <= c <= 'Z' then (c as int - 'A' as int + 'a' as int) as char else c
  }

  function Lower(s: string): (t: string)
    ensures |t| == |s| && forall i | 0 <= i < |s| :: t[i] == LowerChar(s[i])
  {
    seq(|s|, i requires 0 <= i < |s| => LowerChar(s[i]))
  }

  function LowerAll(gs: seq<string>): (hs: seq<string>)
    ensures |hs| == |gs| && forall i | 0 <= i < |gs| :: hs[i] == Lower(gs[i])
  {
    seq(|gs|, i requires 0 <= i < |gs| => Lower(gs[i]))
  }

  function LowerReading(r: Reading): Reading {
    r.(left := LowerAll(r.left), right := LowerAll(r.right), quad := LowerAll(r.quad), tok := Lower(r.tok))
  }

  function LowerNext(o: Option<Reading>): Option<Reading> {
    if o.Some? then Some(LowerReading(o.value)) else None
  }

  lemma LowerConcat(s: string, t: string)
    ensures Lower(s + t) == Lower(s) + Lower(t)
    ensures Lower(Lower(s)) == Lower(s)
  {
  }

  lemma LowerSlice(s: string, i: nat, j: nat)
    requires i <= j <= |s|
    ensures Lower(s[i..j]) == Lower(s)[i..j]
  {
  }

  lemma LowerSnoc(s: string, c: char)
    ensures Lower(s + [c]) == Lower(s) + [LowerChar(c)]
  {
  }

  lemma LowerAllSnoc(gs: seq<string>, g: string)
    ensures LowerAll(gs + [g]) == LowerAll(gs) + [Lower(g)]
  {
  }

  lemma LowerDigit(c: char)
    ensures IsHexDigit(LowerChar(c)) <==> IsHexDigit(c)
    ensures LowerChar(c) == ':' <==> c == ':'
    ensures LowerChar(c) == '.' <==> c == '.'
    ensures LowerChar(c) == '[' <==> c == '['
    ensures LowerChar(c) == ']' <==> c == ']'
    ensures IsDigit(LowerChar(c)) || IsDigit(c) ==> LowerChar(c) == c
  {
  }

  lemma LowerOctet(t: string)
    ensures IsDecOctet(Lower(t)) <==> IsDecOctet(t)
    ensures IsDecOctet(t) ==> Lower(t) == t
  {
    forall i | 0 <= i < |t|
      ensures IsDigit(LowerChar(t[i])) || IsDigit(t[i]) ==> LowerChar(t[i]) == t[i]
    {
      LowerDigit(t[i]);
    }
    if IsDecOctet(Lower(t)) {
      assert Lower(t) == t;
    }
  }

  lemma LowerFits(r: Reading)
    ensures Complete6(LowerReading(r)) <==> Complete6(r)
    ensures Complete4(LowerReading(r)) <==> Complete4(r)
    ensures LowerReading(r) == START <==> r == START
  {
  }

  lemma LowerOnColon(r: Reading)
    ensures OnColon(LowerReading(r)) == LowerNext(OnColon(r))
  {
    LowerAllSnoc(r.left, r.tok);
    LowerAllSnoc(r.right, r.tok);
    assert Lower("") == "";
  }

  lemma LowerOnDot(r: Reading)
    ensures OnDot(LowerReading(r)) == LowerNext(OnDot(r))
  {
    LowerAllSnoc(r.quad, r.tok);
    LowerOctet(r.tok);
    assert Lower("") == "";
    hide IsDecOctet;
  }

  lemma LowerOnHexDigit(r: Reading, c: char)
    ensures OnHexDigit(LowerReading(r), LowerChar(c)) == LowerNext(OnHexDigit(r, c))
  {
    LowerSnoc(r.tok, c);
    LowerOctet(r.tok + [c]);
    hide IsDecOctet, LowerChar;
  }

  lemma LowerStep(r: Reading, c: char)
    ensures Next(LowerReading(r), LowerChar(c)) == LowerNext(Next(r, c))
  {
    hide OnColon, OnDot, OnHexDigit, Complete6, LowerChar, IsHexDigit;
    LowerDigit(c);
    LowerFits(r);
    LowerOnColon(r);
    LowerOnDot(r);
    LowerOnHexDigit(r, c);
  }

  // The reader takes a string in lower case as it takes the string itself.
  lemma {:induction false} LowerScan(s: string)
    ensures Scan(Lower(s)) == LowerNext(Scan(s))
    decreases |s|
  {
    hide Next, LowerReading, LowerChar;
    if s == "" {
      LowerStart();
    } else {
      var t, c := s[..|s| - 1], s[|s| - 1];
      LowerScan(t);
      LowerSlice(s, 0, |s| - 1);
      assert Lower(s)[..|s| - 1] == Lower(t) && Lower(s)[|s| - 1] == LowerChar(c);
      if Scan(t).Some? {
        LowerStep(Scan(t).value, c);
      }
    }
  }

  lemma LowerStart()
    ensures LowerReading(START) == START
  {
  }

  lemma LowerIsWord(s: string)
    ensures IsIPv4(Lower(s)) <==> IsIPv4(s)
    ensures IsIPv6(Lower(s)) <==> IsIPv6(s)
    ensures IsIPv6Reference(Lower(s)) <==> IsIPv6Reference(s)
  {
    hide IsIPv4, IsIPv6, IsIPv6Reference, Scan, Complete4, Complete6;
    LowerScan(s);
    IPv4IsRead(s);
    IPv6IsRead(s);
    ReferenceIsRead(s);
    IPv4IsRead(Lower(s));
    IPv6IsRead(Lower(s));
    ReferenceIsRead(Lower(s));
    if Scan(s).Some? {
      LowerFits(Scan(s).value);
    }
  }

  lemma LowerPrefix(s: string)
    ensures IsIPv6Prefix(Lower(s)) <==> IsIPv6Prefix(s)
    ensures HasIPv6Prefix(Lower(s)) <==> HasIPv6Prefix(s)
  {
    hide IsIPv6, Lower;
    if IsIPv6Prefix(s) {
      var t :| IsIPv6(s + t);
      LowerConcat(s, t);
      LowerIsWord(s + t);
      assert IsIPv6(Lower(s) + Lower(t));
    }
    if IsIPv6Prefix(Lower(s)) {
      var t :| IsIPv6(Lower(s) + t);
      LowerConcat(s, t);
      LowerConcat(Lower(s), t);
      LowerIsWord(Lower(s) + t);
      LowerIsWord(s + t);
      assert IsIPv6(s + t);
    }
    forall k | 0 <= k <= |s|
      ensures IsIPv6(Lower(s)[..k]) <==> IsIPv6(s[..k])
    {
      LowerSlice(s, 0, k);
      LowerIsWord(s[..k]);
      assert Lower(s)[..k] == Lower(s)[0..k] && s[..k] == s[0..k];
    }
  }

  lemma LowerType(s: string)
    ensures Classify(Lower(s)) == Classify(s)
  {
    hide Classify, IsIPv4, IsIPv6Reference, IsIPv6Prefix, HasIPv6Prefix;
    ResultMeans(s);
    ResultMeans(Lower(s));
    LowerIsWord(s);
    LowerPrefix(s);
  }

  lemma {:induction false} LowerHex(h: string)
    requires IsHexText(h)
    ensures IsHexText(Lower(h)) && HexValue(Lower(h)) == HexValue(h)
    decreases |h|
  {
    forall i | 0 <= i < |h|
      ensures IsHexDigit(Lower(h)[i])
    {
      LowerDigit(h[i]);
    }
    if h != "" {
      LowerHex(h[..|h| - 1]);
      LowerSlice(h, 0, |h| - 1);
      LowerDigitValue(h[|h| - 1]);
      assert Lower(h)[..|h| - 1] == Lower(h[..|h| - 1]);
    }
  }

  lemma LowerDigitValue(c: char)
    requires IsHexDigit(c)
    ensures IsHexDigit(LowerChar(c)) && DigitValue(LowerChar(c)) == DigitValue(c)
  {
  }

  lemma LowerValues(gs: seq<string>)
    requires AllH16(gs) && AllH16(LowerAll(gs))
    ensures GroupValues(LowerAll(gs)) == GroupValues(gs)
  {
    hide HexValue, IsH16;
    forall i | 0 <= i < |gs|
      ensures IsHexText(gs[i]) && IsHexText(Lower(gs[i])) && HexValue(Lower(gs[i])) == HexValue(gs[i])
    {
      GroupIsHex(gs[i]);
      GroupIsHex(Lower(gs[i]));
      LowerHex(gs[i]);
    }
  }

  lemma GroupIsHex(g: string)
    requires IsH16(g)
    ensures IsHexText(g) && |g| <= 4
  {
  }

  lemma LowerUnits(r: Reading)
    requires WellFormed(r) && Complete6(r) && WellFormed(LowerReading(r)) && Complete6(LowerReading(r))
    ensures Units(LowerReading(r)) == Units(r)
  {
    LowerValues(r.left);
    LowerValues(r.right);
    LowerLast(r);
    hide GroupValues, LastUnits, Zeros, WellFormed, Complete6, Lower, LowerAll;
  }

  lemma LowerOctets(r: Reading)
    requires AllOctets(r.quad)
    ensures LowerAll(r.quad) == r.quad
  {
    forall i | 0 <= i < |r.quad|
      ensures Lower(r.quad[i]) == r.quad[i]
    {
      LowerOctet(r.quad[i]);
    }
  }

  lemma LowerLast(r: Reading)
    requires WellFormed(r) && Complete6(r) && WellFormed(LowerReading(r)) && Complete6(LowerReading(r))
    ensures LastUnits(LowerAll(r.quad), Lower(r.tok)) == LastUnits(r.quad, r.tok)
  {
    LowerOctets(r);
    if r.quad == [] {
      if r.tok != "" {
        GroupIsHex(r.tok);
        LowerHex(r.tok);
      }
    } else {
      LowerOctet(r.tok);
    }
    hide HexValue, IsDecOctet, OctetValue, AllH16, QuadFits;
  }

  lemma LowerPton(s: string)
    ensures Pton4(Lower(s)) == Pton4(s) && Pton6(Lower(s)) == Pton6(s)
  {
    hide Units, Octets, Complete4, Complete6, LowerReading;
    LowerScan(s);
    ScanSound(s);
    ScanSound(Lower(s));
    if Scan(s).Some? {
      var r := Scan(s).value;
      LowerFits(r);
      LowerKeepsShape(r);
      if Complete6(r) {
        LowerUnits(r);
      }
      if Complete4(r) {
        CompleteIsQuad(r);
        LowerOctets(r);
        LowerOctet(r.tok);
      }
    }
  }

  lemma LowerKeepsShape(r: Reading)
    ensures var l := LowerReading(r);
      l.bracket == r.bracket && l.closed == r.closed && l.quad == LowerAll(r.quad) && l.tok == Lower(r.tok)
  {
  }

  lemma LowerAddress(s: string)
    ensures AddressOf(Lower(s)) == AddressOf(s)
  {
    hide Classify, Pton4, Pton6;
    ResultLength(s);
    LowerType(s);
    LowerPton(s);
    if Classify(s).Ipv6Reference? {
      LowerSlice(s, 1, |s| - 1);
      LowerPton(s[1..|s| - 1]);
    }
  }

  // The case of letters never matters, for words and for all other strings.
  lemma CaseDoesNotMatter(a: string, b: string, allowReference: bool)
    ensures Compare(Lower(a), Lower(b), allowReference) == Compare(a, b, allowReference)
    ensures Compare(Lower(a), b, allowReference) == Compare(a, b, allowReference)
  {
    hide Classify, AddressOf;
    LowerType(a);
    LowerType(b);
    LowerAddress(a);
    LowerAddress(b);
  }

  // A word and the same word in lower case are the same address.
  lemma LowerCaseIsTheSame(s: string, allowReference: bool)
    requires IsIpWord(s)
    ensures Compare(s, Lower(s), allowReference).Yes?
  {
    hide Compare, IsIpWord;
    CompareIsReflexive(s, allowReference);
    CaseDoesNotMatter(s, s, allowReference);
    CompareIsSymmetric(s, Lower(s), allowReference);
  }

  // -------- the one full spelling of a word --------

  // The group in four lower-case digits.
  function Padded(g: string): string
    requires |g| <= 4
  {
    "0000"[..4 - |g|] + Lower(g)
  }

  lemma LeadingZero(h: string)
    requires IsHexText(h)
    ensures IsHexText("0" + h) && HexValue("0" + h) == HexValue(h)
    decreases |h|
  {
    if h == "" {
      assert "0" + h == "" + ['0'];
      HexSnoc("", '0');
    } else {
      var t, c := h[..|h| - 1], h[|h| - 1];
      LeadingZero(t);
      assert "0" + h == ("0" + t) + [c] && h == t + [c];
      HexSnoc("0" + t, c);
      HexSnoc(t, c);
    }
  }

  lemma {:induction false} PaddedValue(g: string)
    requires IsHexText(g) && |g| <= 4
    ensures |Padded(g)| == 4 && IsHexText(Padded(g)) && HexValue(Padded(g)) == HexValue(g)
    ensures Lower(Padded(g)) == Padded(g)
    decreases 4 - |g|
  {
    if |g| == 4 {
      assert Padded(g) == Lower(g);
      LowerHex(g);
    } else {
      LeadingZero(g);
      PaddedValue("0" + g);
      PaddedOnce(g);
    }
  }

  lemma PaddedOnce(g: string)
    requires |g| < 4
    ensures Padded("0" + g) == Padded(g)
  {
    LowerConcat("0", g);
    assert Lower("0") == "0";
    assert "0000"[..4 - |g|] == "0000"[..3 - |g|] + "0";
  }

  lemma DigitIsUnique(c: char)
    requires IsHexDigit(c) && LowerChar(c) == c
    ensures DigitValue(c) < 16 && HexDigitOf(DigitValue(c)) == c
  {
  }

  lemma QuotientsOf(a: nat, b: nat, c: nat, d: nat)
    requires a < 16 && b < 16 && c < 16 && d < 16
    ensures var u := 4096 * a + 256 * b + 16 * c + d;
      u / 4096 == a && u / 256 % 16 == b && u / 16 % 16 == c && u % 16 == d
  {
    var u := 4096 * a + 256 * b + 16 * c + d;
    assert u / 16 == 256 * a + 16 * b + c;
    assert u / 256 == 16 * a + b;
  }

  lemma FourDigitsAreUnique(a: char, b: char, c: char, d: char)
    requires IsHexDigit(a) && IsHexDigit(b) && IsHexDigit(c) && IsHexDigit(d)
    requires LowerChar(a) == a && LowerChar(b) == b && LowerChar(c) == c && LowerChar(d) == d
    ensures var h := [a, b, c, d];
      IsHexText(h) && HexValue(h) < 0x10000 && GroupOf(HexValue(h)) == h
  {
    hide HexDigitOf, DigitValue, HexValue, LowerChar, IsHexDigit;
    DigitIsUnique(a);
    DigitIsUnique(b);
    DigitIsUnique(c);
    DigitIsUnique(d);
    FourDigits(a, b, c, d);
    QuotientsOf(DigitValue(a), DigitValue(b), DigitValue(c), DigitValue(d));
  }

  // A group is determined by its value, up to case and the zeros that begin it.
  lemma ValueIsTheGroup(g: string)
    requires IsH16(g)
    ensures IsHexText(g) && HexValue(g) < 0x10000 && GroupOf(HexValue(g)) == Padded(g)
  {
    hide HexValue, GroupOf, Padded, LowerChar;
    GroupIsHex(g);
    PaddedValue(g);
    var p := Padded(g);
    assert Lower(p)[0] == p[0] && Lower(p)[1] == p[1] && Lower(p)[2] == p[2] && Lower(p)[3] == p[3];
    FourDigitsAreUnique(p[0], p[1], p[2], p[3]);
    assert p == [p[0], p[1], p[2], p[3]];
  }

  // Two groups have the same value exactly when they are the same in four lower-case digits.
  lemma SameValueSameDigits(g: string, h: string)
    requires IsH16(g) && IsH16(h)
    ensures HexValue(g) == HexValue(h) <==> Padded(g) == Padded(h)
  {
    ValueIsTheGroup(g);
    ValueIsTheGroup(h);
    PaddedValue(g);
    PaddedValue(h);
    hide HexValue, Padded, GroupOf;
  }

  lemma DecimalIsUnique(c: char)
    requires IsDigit(c)
    ensures DigitValue(c) < 10 && DigitValue(c) == c as int - '0' as int && HexDigitOf(DigitValue(c)) == c
  {
  }

  lemma DecimalQuotients(a: nat, b: nat, c: nat)
    requires b < 10 && c < 10
    ensures (10 * b + c) / 10 == b && (10 * b + c) % 10 == c
    ensures var n := 100 * a + 10 * b + c;
      n / 100 == a && n / 10 % 10 == b && n % 10 == c
  {
    var n := 100 * a + 10 * b + c;
    assert n / 10 == 10 * a + b;
  }

  // An octet is the one decimal spelling of its value.
  lemma ValueIsTheOctet(o: string)
    requires IsDecOctet(o)
    ensures OctetValue(o) < 256 && DecimalOf(OctetValue(o)) == o
  {
    hide HexDigitOf, DigitValue;
    DecimalIsUnique(o[0]);
    if |o| == 2 {
      DecimalIsUnique(o[1]);
      DecimalQuotients(0, DigitValue(o[0]), DigitValue(o[1]));
    } else if |o| == 3 {
      DecimalIsUnique(o[1]);
      DecimalIsUnique(o[2]);
      DecimalQuotients(DigitValue(o[0]), DigitValue(o[1]), DigitValue(o[2]));
    }
  }

  // -------- words with the same address --------

  lemma SameOctets(quad: seq<string>, tok: string, quad': seq<string>, tok': string)
    requires |quad| == 3 && AllOctets(quad) && IsDecOctet(tok)
    requires |quad'| == 3 && AllOctets(quad') && IsDecOctet(tok')
    requires Octets(quad, tok) == Octets(quad', tok')
    ensures quad == quad' && tok == tok'
  {
    hide IsDecOctet, OctetValue, DecimalOf;
    forall i | 0 <= i < 3
      ensures quad[i] == quad'[i]
    {
      ValueIsTheOctet(quad[i]);
      ValueIsTheOctet(quad'[i]);
      assert Octets(quad, tok)[i] == Octets(quad', tok')[i];
    }
    ValueIsTheOctet(tok);
    ValueIsTheOctet(tok');
    assert Octets(quad, tok)[3] == Octets(quad', tok')[3];
  }

  lemma QuadOf(s: string)
    requires IsIPv4(s)
    ensures Classify(s).Ipv4? && Scan(s).Some? && Text(Scan(s).value) == s
    ensures var r := Scan(s).value;
      && r == QuadReading(r.quad, r.tok) && |r.quad| == 3 && AllOctets(r.quad) && IsDecOctet(r.tok)
      && AddressOf(s) == Some(V4(Octets(r.quad, r.tok)))
  {
    hide IsIPv4, Scan, Classify, Text, WellFormed, Complete4, QuadReading, IsDecOctet, Octets, HasIPv6Prefix;
    IPv4IsRead(s);
    ScanSound(s);
    ResultMeans(s);
    CompleteIsQuad(Scan(s).value);
  }

  // Two IPv4 words are the same address exactly when they are the same string.
  lemma SameIPv4IsTheSameWord(s: string, t: string, allowReference: bool)
    requires IsIPv4(s) && IsIPv4(t)
    ensures Compare(s, t, allowReference) == if s == t then Yes else No
  {
    hide IsIPv4, Scan, Classify, AddressOf, Octets, IsDecOctet, Text;
    QuadOf(s);
    QuadOf(t);
    var r, r' := Scan(s).value, Scan(t).value;
    if Octets(r.quad, r.tok) == Octets(r'.quad, r'.tok) {
      SameOctets(r.quad, r.tok, r'.quad, r'.tok);
    }
  }

  // No IPv4 word is the address of an IPv6 word, whatever their bits.
  lemma FamiliesDiffer(s: string, t: string, allowReference: bool)
    requires IsIPv4(s) && (IsIPv6(t) || IsIPv6Reference(t))
    ensures Compare(s, t, allowReference) == Compare(t, s, allowReference) == No
  {
    hide IsIPv4, IsIPv6, IsIPv6Reference, Scan, Classify, AddressOf;
    AddressesAreWords(s);
    AddressesAreWords(t);
    FinalStatesAreTheGrammar(s);
    FinalStatesAreTheGrammar(t);
  }

  function PaddedAll(gs: seq<string>): (ps: seq<string>)
    requires AllH16(gs)
    ensures |ps| == |gs| && forall i | 0 <= i < |gs| :: |gs[i]| <= 4 && ps[i] == Padded(gs[i])
  {
    seq(|gs|, i requires 0 <= i < |gs| => Padded(gs[i]))
  }

  // The last group, or the two groups that an IPv4 address at the end of a word stands for.
  function SpelledLast(quad: seq<string>, tok: string): seq<string>
    requires AllOctets(quad) && if quad == [] then tok == "" || IsH16(tok) else |quad| == 3 && IsDecOctet(tok)
  {
    if quad == [] then
      if tok == "" then [] else [Padded(tok)]
    else
      [GroupOf(256 * ByteOf(quad[0]) + ByteOf(quad[1])), GroupOf(256 * ByteOf(quad[2]) + ByteOf(tok))]
  }

  function ByteOf(o: string): (b: nat)
    requires IsDecOctet(o)
    ensures b == OctetValue(o) < 256
  {
    ValueIsTheOctet(o);
    OctetValue(o)
  }

  // An IPv6 word in full: eight groups of four lower-case digits.
  function Spelled(r: Reading): seq<string>
    requires WellFormed(r) && Complete6(r)
  {
    var l, t := PaddedAll(r.left), PaddedAll(r.right) + SpelledLast(r.quad, r.tok);
    l + ZerosInFull(8 - |l| - |t|) + t
  }

  function ZerosInFull(n: nat): (gs: seq<string>)
    ensures |gs| == n && forall i | 0 <= i < n :: gs[i] == "0000"
  {
    seq(n, i => "0000")
  }

  function GroupsOf(us: seq<nat>): (gs: seq<string>)
    requires AllFit(us)
    ensures |gs| == |us| && forall i | 0 <= i < |us| :: gs[i] == GroupOf(us[i])
  {
    seq(|us|, i requires 0 <= i < |us| => GroupOf(us[i]))
  }

  lemma GroupsOfConcat(a: seq<nat>, b: seq<nat>)
    requires AllFit(a) && AllFit(b)
    ensures AllFit(a + b) && GroupsOf(a + b) == GroupsOf(a) + GroupsOf(b)
  {
    hide GroupOf;
  }

  lemma GroupsOfValues(gs: seq<string>)
    requires AllH16(gs)
    ensures AllFit(GroupValues(gs)) && GroupsOf(GroupValues(gs)) == PaddedAll(gs)
  {
    hide GroupOf, Padded, HexValue, IsH16;
    forall i | 0 <= i < |gs|
      ensures IsHexText(gs[i]) && HexValue(gs[i]) < 0x10000 && |gs[i]| <= 4
      ensures GroupOf(HexValue(gs[i])) == Padded(gs[i])
    {
      GroupIsHex(gs[i]);
      ValueIsTheGroup(gs[i]);
    }
  }

  lemma GroupsOfZeros(n: nat)
    ensures AllFit(Zeros(n)) && GroupsOf(Zeros(n)) == ZerosInFull(n)
  {
    assert GroupOf(0) == "0000";
  }

  lemma GroupsOfLast(quad: seq<string>, tok: string)
    requires AllOctets(quad) && if quad == [] then tok == "" || IsH16(tok) else |quad| == 3 && IsDecOctet(tok)
    ensures AllFit(LastUnits(quad, tok)) && GroupsOf(LastUnits(quad, tok)) == SpelledLast(quad, tok)
  {
    hide GroupOf, Padded, HexValue, OctetValue, IsDecOctet;
    LastUnitsFit(quad, tok);
    if quad == [] && tok != "" {
      ValueIsTheGroup(tok);
    }
  }

  lemma PartsOf(r: Reading)
    requires WellFormed(r) && Complete6(r)
    ensures AllH16(r.left) && AllH16(r.right) && AllOctets(r.quad)
    ensures if r.quad == [] then r.tok == "" || IsH16(r.tok) else |r.quad| == 3 && IsDecOctet(r.tok)
    ensures |r.left| + |r.right| + |LastUnits(r.quad, r.tok)| <= 8
    ensures |SpelledLast(r.quad, r.tok)| == |LastUnits(r.quad, r.tok)|
  {
    hide HexValue, OctetValue, GroupOf, Padded;
  }

  lemma GroupsOfParts(l: seq<nat>, z: seq<nat>, m: seq<nat>, e: seq<nat>)
    requires AllFit(l) && AllFit(z) && AllFit(m) && AllFit(e)
    ensures AllFit(l + z + (m + e))
    ensures GroupsOf(l + z + (m + e)) == GroupsOf(l) + GroupsOf(z) + (GroupsOf(m) + GroupsOf(e))
  {
    hide AllFit, GroupsOf;
    GroupsOfConcat(m, e);
    GroupsOfConcat(l, z);
    GroupsOfConcat(l + z, m + e);
  }

  // How many units a "::" stands for; none when there is no "::".
  function Missing(r: Reading): (n: nat)
    requires WellFormed(r) && Complete6(r)
    ensures n == 8 - |r.left| - |r.right| - |LastUnits(r.quad, r.tok)|
  {
    PartsOf(r);
    8 - |r.left| - |r.right| - |LastUnits(r.quad, r.tok)|
  }

  lemma UnitsInParts(r: Reading)
    requires WellFormed(r) && Complete6(r)
    ensures Units(r) == GroupValues(r.left) + Zeros(Missing(r)) + (GroupValues(r.right) + LastUnits(r.quad, r.tok))
  {
    hide GroupValues, LastUnits, Zeros;
  }

  lemma SpelledInParts(r: Reading)
    requires WellFormed(r) && Complete6(r)
    ensures Spelled(r) ==
      PaddedAll(r.left) + ZerosInFull(Missing(r)) + (PaddedAll(r.right) + SpelledLast(r.quad, r.tok))
  {
    hide SpelledLast, PaddedAll, ZerosInFull, LastUnits;
    PartsOf(r);
  }

  lemma SpelledIsTheUnits(r: Reading)
    requires WellFormed(r) && Complete6(r)
    ensures AllFit(Units(r)) && GroupsOf(Units(r)) == Spelled(r)
  {
    hide *;
    PartsOf(r);
    UnitsInParts(r);
    SpelledInParts(r);
    GroupsOfValues(r.left);
    GroupsOfValues(r.right);
    GroupsOfLast(r.quad, r.tok);
    GroupsOfZeros(Missing(r));
    GroupsOfParts(GroupValues(r.left), Zeros(Missing(r)), GroupValues(r.right), LastUnits(r.quad, r.tok));
  }

  lemma GroupsAreUnits(us: seq<nat>, vs: seq<nat>)
    requires AllFit(us) && AllFit(vs) && GroupsOf(us) == GroupsOf(vs)
    ensures us == vs
  {
    hide GroupOf, HexValue;
    assert |us| == |vs|;
    forall i | 0 <= i < |us|
      ensures us[i] == vs[i]
    {
      GroupRoundTrip(us[i]);
      GroupRoundTrip(vs[i]);
      assert GroupsOf(us)[i] == GroupsOf(vs)[i];
    }
  }

  lemma AddressOfReading(r: Reading)
    requires WellFormed(r) && Complete6(r) && !r.bracket
    ensures IsIPv6(Text(r)) && AddressOf(Text(r)) == Some(V6(Units(r)))
    ensures !IsReference(Text(r)) && !Classify(Text(r)).NoIp?
  {
    hide IsIPv4, IsIPv6, IsIPv6Reference, Run, Scan, Text, Units, WellFormed, Complete6, HasIPv6Prefix, IsIPv6Prefix;
    ScanComplete(r);
    IPv6IsRead(Text(r));
    PtonOfReading(r);
    FinalStatesAreTheGrammar(Text(r));
    AddressesAreWords(Text(r));
  }

  // Two IPv6 words are the same address exactly when they are the same eight groups, once a
  // "::" is written out and every group has four digits in lower case.
  lemma SameIPv6IsTheSameSpelling(r: Reading, r': Reading, allowReference: bool)
    requires WellFormed(r) && Complete6(r) && !r.bracket
    requires WellFormed(r') && Complete6(r') && !r'.bracket
    ensures Compare(Text(r), Text(r'), allowReference) == if Spelled(r) == Spelled(r') then Yes else No
  {
    hide Units, Spelled, WellFormed, Complete6, Classify, AddressOf, Text, GroupsOf, AllFit, IsReference;
    AddressOfReading(r);
    AddressOfReading(r');
    SpelledIsTheUnits(r);
    SpelledIsTheUnits(r');
    if Spelled(r) == Spelled(r') {
      GroupsAreUnits(Units(r), Units(r'));
    }
  }

  // A zero written before the i-th group of a word.
  function WithZero(r: Reading, i: nat): Reading {
    if i < |r.left| then r.(left := r.left[i := "0" + r.left[i]])
    else if i - |r.left| < |r.right| then r.(right := r.right[i - |r.left| := "0" + r.right[i - |r.left|]])
    else r.(tok := "0" + r.tok)
  }

  function GroupAt(r: Reading, i: nat): string {
    if i < |r.left| then r.left[i]
    else if i - |r.left| < |r.right| then r.right[i - |r.left|]
    else r.tok
  }

  // A zero before a group of less than four digits keeps the address.
  lemma LeadingZeroKeepsTheAddress(r: Reading, i: nat, allowReference: bool)
    requires WellFormed(r) && Complete6(r) && !r.bracket
    requires i < |r.left| + |r.right| || (r.quad == [] && r.tok != "")
    requires |GroupAt(r, i)| < 4
    ensures Compare(Text(r), Text(WithZero(r, i)), allowReference).Yes?
  {
    hide Compare, Text, Spelled;
    ZeroFits(r, i);
    ZeroIsNotSpelled(r, i);
    SameIPv6IsTheSameSpelling(r, WithZero(r, i), allowReference);
  }

  lemma ZeroFits(r: Reading, i: nat)
    requires WellFormed(r) && Complete6(r) && !r.bracket
    requires i < |r.left| + |r.right| || (r.quad == [] && r.tok != "")
    requires |GroupAt(r, i)| < 4
    ensures WellFormed(WithZero(r, i)) && Complete6(WithZero(r, i)) && !WithZero(r, i).bracket
  {
    assert IsH16(GroupAt(r, i)) && IsH16("0" + GroupAt(r, i));
    hide IsH16, IsDecOctet;
  }

  lemma PaddedAllWithZero(gs: seq<string>, i: nat)
    requires AllH16(gs) && i < |gs| && AllH16(gs[i := "0" + gs[i]])
    ensures PaddedAll(gs[i := "0" + gs[i]]) == PaddedAll(gs)
  {
    assert IsH16("0" + gs[i]) by {
      assert gs[i := "0" + gs[i]][i] == "0" + gs[i];
    }
    PaddedOnce(gs[i]);
    hide Padded;
  }

  lemma ZeroInParts(r: Reading, i: nat)
    requires WellFormed(r) && Complete6(r) && WellFormed(WithZero(r, i)) && Complete6(WithZero(r, i))
    requires i < |r.left| + |r.right| || (r.quad == [] && r.tok != "")
    requires |GroupAt(r, i)| < 4
    ensures AllH16(r.left) && AllH16(WithZero(r, i).left) && PaddedAll(WithZero(r, i).left) == PaddedAll(r.left)
    ensures AllH16(r.right) && AllH16(WithZero(r, i).right) && PaddedAll(WithZero(r, i).right) == PaddedAll(r.right)
  {
    hide Padded, PaddedAll, Complete6, IsH16, IsDecOctet, AllH16;
    if i < |r.left| {
      PaddedAllWithZero(r.left, i);
    } else if i - |r.left| < |r.right| {
      PaddedAllWithZero(r.right, i - |r.left|);
    }
  }

  lemma ZeroInLast(r: Reading, i: nat)
    requires WellFormed(r) && Complete6(r) && WellFormed(WithZero(r, i)) && Complete6(WithZero(r, i))
    requires i < |r.left| + |r.right| || (r.quad == [] && r.tok != "")
    requires |GroupAt(r, i)| < 4
    ensures SpelledLast(WithZero(r, i).quad, WithZero(r, i).tok) == SpelledLast(r.quad, r.tok)
  {
    hide Padded, IsH16, IsDecOctet, AllH16, GroupOf;
    PaddedOnce(GroupAt(r, i));
  }

  lemma ZeroIsNotSpelled(r: Reading, i: nat)
    requires WellFormed(r) && Complete6(r) && WellFormed(WithZero(r, i)) && Complete6(WithZero(r, i))
    requires i < |r.left| + |r.right| || (r.quad == [] && r.tok != "")
    requires |GroupAt(r, i)| < 4
    ensures Spelled(WithZero(r, i)) == Spelled(r)
  {
    hide PaddedAll, WellFormed, Complete6, AllH16, SpelledLast, WithZero, GroupAt;
    ZeroInParts(r, i);
    ZeroInLast(r, i);
  }
}
