/**
  The address an IP word stands for: what inet_pton stores, as four octets or eight units
  of 16 bits. It is a function of the word's groups; strings outside the grammar have none.
 */
module IpAddress {
  import opened Wrappers
  import opened IpGrammar
  import opened IpReading
  import opened IpWords

  function DigitValue(c: char): nat
    requires IsHexDigit(c)
  {
    if IsDigit(c) then c as int - '0' as int
    else if 'A' <= c <= 'F' then c as int - 'A' as int + 10
    else c as int - 'a' as int + 10
  }

  predicate IsHexText(h: string) {
    forall i | 0 <= i < |h| :: IsHexDigit(h[i])
  }

  function HexValue(h: string): nat
    requires IsHexText(h)
  {
    if h == "" then 0 else 16 * HexValue(h[..|h| - 1]) + DigitValue(h[|h| - 1])
  }

  function OctetValue(o: string): nat
    requires IsDecOctet(o)
  {
    if |o| == 1 then DigitValue(o[0])
    else if |o| == 2 then 10 * DigitValue(o[0]) + DigitValue(o[1])
    else 100 * DigitValue(o[0]) + 10 * DigitValue(o[1]) + DigitValue(o[2])
  }

  function GroupValues(gs: seq<string>): (vs: seq<nat>)
    requires AllH16(gs)
    ensures |vs| == |gs| && forall i | 0 <= i < |gs| :: vs[i] == HexValue(gs[i])
  {
    if gs == [] then [] else GroupValues(gs[..|gs| - 1]) + [HexValue(gs[|gs| - 1])]
  }

  function Octets(quad: seq<string>, tok: string): seq<nat>
    requires |quad| == 3 && AllOctets(quad) && IsDecOctet(tok)
  {
    [OctetValue(quad[0]), OctetValue(quad[1]), OctetValue(quad[2]), OctetValue(tok)]
  }

  // The units that end a word: the last group, or the two that an IPv4 address fills.
  function LastUnits(quad: seq<string>, tok: string): seq<nat>
    requires AllOctets(quad) && if quad == [] then tok == "" || IsH16(tok) else |quad| == 3 && IsDecOctet(tok)
  {
    if quad == [] then
      if tok == "" then [] else [HexValue(tok)]
    else
      var o := Octets(quad, tok);
      [256 * o[0] + o[1], 256 * o[2] + o[3]]
  }

  function Zeros(n: nat): (zs: seq<nat>)
    ensures |zs| == n && forall i | 0 <= i < n :: zs[i] == 0
  {
    seq(n, i => 0)
  }

  // The eight units of an IPv6 word; a "::" stands for as many zeros as are missing.
  function Units(r: Reading): (us: seq<nat>)
    requires WellFormed(r) && Complete6(r)
    ensures |us| == 8
  {
    var l, t := GroupValues(r.left), GroupValues(r.right) + LastUnits(r.quad, r.tok);
    l + Zeros(8 - |l| - |t|) + t
  }

  function Pton6(s: string): Option<seq<nat>> {
    ScanSound(s);
    match Scan(s)
    case None => None
    case Some(r) => if !r.bracket && Complete6(r) then Some(Units(r)) else None
  }

  function Pton4(s: string): Option<seq<nat>> {
    ScanSound(s);
    match Scan(s)
    case None => None
    case Some(r) => if Complete4(r) then Some(Octets(r.quad, r.tok)) else None
  }

  lemma PtonAcceptsTheGrammar(s: string)
    ensures Pton4(s).Some? <==> IsIPv4(s)
    ensures Pton6(s).Some? <==> IsIPv6(s)
  {
    IPv4IsRead(s);
    IPv6IsRead(s);
  }

  // -------- a "::" is the zeros it hides --------

  function ZeroGroups(n: nat): (gs: seq<string>)
    ensures |gs| == n && AllH16(gs)
  {
    seq(n, i => "0")
  }

  // How many zero groups the "::" of a reading hides.
  function Hidden(r: Reading): nat
    requires WellFormed(r) && Complete6(r) && r.gap.FullGap?
  {
    8 - |r.left| - |r.right| - |LastUnits(r.quad, r.tok)|
  }

  // The same word with its "::" written out as "0" groups.
  function WrittenOut(r: Reading): Reading
    requires WellFormed(r) && Complete6(r) && r.gap.FullGap?
  {
    var gs := r.left + ZeroGroups(Hidden(r)) + r.right;
    if r.quad != [] then
      r.(left := gs, gap := NoGap, right := [])
    else if r.tok != "" then
      r.(left := gs, gap := NoGap, right := [])
    else
      r.(left := gs[..7], gap := NoGap, right := [], tok := gs[7])
  }

  lemma {:induction false} GroupValuesConcat(a: seq<string>, b: seq<string>)
    requires AllH16(a) && AllH16(b)
    ensures GroupValues(a + b) == GroupValues(a) + GroupValues(b)
  {
    assert AllH16(a + b);
    var x, y := GroupValues(a + b), GroupValues(a) + GroupValues(b);
    assert |x| == |y| && forall i | 0 <= i < |x| :: x[i] == y[i];
  }

  lemma ZeroGroupValues(n: nat)
    ensures GroupValues(ZeroGroups(n)) == Zeros(n)
  {
    assert HexValue("0") == 16 * HexValue("0"[..0]) + 0;
  }

  lemma SpreadValues(l: seq<string>, n: nat, t: seq<string>)
    requires AllH16(l) && AllH16(t)
    ensures AllH16(l + ZeroGroups(n) + t)
    ensures GroupValues(l + ZeroGroups(n) + t) == GroupValues(l) + Zeros(n) + GroupValues(t)
  {
    var z := ZeroGroups(n);
    ConcatIsH16(l, z);
    ConcatIsH16(l + z, t);
    hide AllH16, GroupValues, ZeroGroups, Zeros;
    GroupValuesConcat(l, z);
    GroupValuesConcat(l + z, t);
    ZeroGroupValues(n);
  }

  lemma ConcatIsH16(a: seq<string>, b: seq<string>)
    requires AllH16(a) && AllH16(b)
    ensures AllH16(a + b)
  {
  }

  // The units of a word with a "::", told apart.
  lemma UnitsAroundGap(r: Reading)
    requires WellFormed(r) && Complete6(r) && r.gap.FullGap?
    ensures Units(r) == GroupValues(r.left) + Zeros(Hidden(r)) + (GroupValues(r.right) + LastUnits(r.quad, r.tok))
  {
    hide GroupValues, Zeros, LastUnits;
  }

  lemma SpreadGroups(r: Reading)
    requires WellFormed(r) && Complete6(r) && r.gap.FullGap?
    ensures var gs := r.left + ZeroGroups(Hidden(r)) + r.right;
            AllH16(gs) && GroupValues(gs) + LastUnits(r.quad, r.tok) == Units(r)
  {
    UnitsAroundGap(r);
    SpreadValues(r.left, Hidden(r), r.right);
    hide Units, GroupValues, LastUnits, Zeros, ZeroGroups, AllH16;
    RegroupUnits(GroupValues(r.left) + Zeros(Hidden(r)), GroupValues(r.right), LastUnits(r.quad, r.tok));
  }

  lemma RegroupUnits(a: seq<nat>, b: seq<nat>, c: seq<nat>)
    ensures a + b + c == a + (b + c)
  {
  }

  lemma UnitsWithoutGap(w: Reading)
    requires WellFormed(w) && Complete6(w) && w.gap.NoGap?
    ensures Units(w) == GroupValues(w.left) + LastUnits(w.quad, w.tok)
  {
    var t := GroupValues(w.right) + LastUnits(w.quad, w.tok);
    assert GroupValues(w.right) == [];
    assert t == LastUnits(w.quad, w.tok) && Zeros(0) == [];
  }

  lemma SeventhAndEighth(gs: seq<string>)
    requires |gs| == 8 && AllH16(gs)
    ensures gs[..7] + [gs[7]] == gs && AllH16(gs[..7])
    ensures GroupValues(gs) == GroupValues(gs[..7]) + [HexValue(gs[7])]
  {
    GroupValuesConcat(gs[..7], [gs[7]]);
    assert GroupValues([gs[7]]) == [HexValue(gs[7])];
    assert gs[..7] + [gs[7]] == gs;
  }

  lemma WrittenOutFits(r: Reading)
    requires WellFormed(r) && Complete6(r) && r.gap.FullGap?
    ensures WellFormed(WrittenOut(r)) && Complete6(WrittenOut(r)) && WrittenOut(r).gap.NoGap?
  {
    var gs := r.left + ZeroGroups(Hidden(r)) + r.right;
    ConcatIsH16(r.left, ZeroGroups(Hidden(r)));
    ConcatIsH16(r.left + ZeroGroups(Hidden(r)), r.right);
    assert |gs| == 8 - |LastUnits(r.quad, r.tok)|;
    if r.quad == [] && r.tok == "" {
      SeventhAndEighth(gs);
      assert IsH16(gs[7]);
    }
    hide GroupValues, AllH16, AllOctets, IsH16, IsDecOctet, ZeroGroups;
  }

  lemma WrittenOutUnits(r: Reading)
    requires WellFormed(r) && Complete6(r) && r.gap.FullGap?
    ensures WellFormed(WrittenOut(r)) && Complete6(WrittenOut(r)) && Units(WrittenOut(r)) == Units(r)
  {
    var w := WrittenOut(r);
    WrittenOutFits(r);
    SpreadGroups(r);
    UnitsWithoutGap(w);
    if r.quad == [] && r.tok == "" {
      SeventhAndEighth(r.left + ZeroGroups(Hidden(r)) + r.right);
    }
    hide Units, GroupValues, WellFormed, Complete6, IsH16, IsDecOctet, AllH16, AllOctets, ZeroGroups;
  }

  lemma NoGapIsUnits(w: Reading)
    requires WellFormed(w) && !w.bracket && Complete6(w) && w.gap.NoGap?
    ensures IsUnits(8, Text(w))
  {
    TextWithoutGap(w);
    if w.quad == [] {
      assert Text(w) == Ended(w.left, ':') + w.tok;
    } else {
      OctetsTo(w.quad, w.tok);
      Regroup(Ended(w.left, ':'), Ended(w.quad, '.'), w.tok);
    }
  }

  lemma PtonOfReading(r: Reading)
    requires WellFormed(r) && !r.bracket && Complete6(r)
    ensures Pton6(Text(r)) == Some(Units(r))
  {
    ScanComplete(r);
  }

  // Writing the "::" out as zero groups gives a word of eight units for the same address.
  lemma WritingOutKeepsTheAddress(r: Reading)
    requires WellFormed(r) && !r.bracket && Complete6(r) && r.gap.FullGap?
    ensures IsUnits(8, Text(WrittenOut(r)))
    ensures Pton6(Text(WrittenOut(r))) == Pton6(Text(r)) == Some(Units(r))
  {
    WrittenOutUnits(r);
    PtonOfReading(r);
    PtonOfReading(WrittenOut(r));
    NoGapIsUnits(WrittenOut(r));
  }

  // -------- every address has a word --------

  function HexDigitOf(d: nat): char
    requires d < 16
  {
    "0123456789abcdef"[d]
  }

  function GroupOf(u: nat): string
    requires u < 0x10000
  {
    [HexDigitOf(u / 4096), HexDigitOf(u / 256 % 16), HexDigitOf(u / 16 % 16), HexDigitOf(u % 16)]
  }

  lemma DigitRoundTrip(d: nat)
    requires d < 16
    ensures IsHexDigit(HexDigitOf(d)) && DigitValue(HexDigitOf(d)) == d
  {
  }

  lemma HexSnoc(h: string, c: char)
    requires IsHexText(h) && IsHexDigit(c)
    ensures IsHexText(h + [c]) && HexValue(h + [c]) == 16 * HexValue(h) + DigitValue(c)
  {
    assert (h + [c])[..|h|] == h;
  }

  lemma FourDigits(a: char, b: char, c: char, d: char)
    requires IsHexDigit(a) && IsHexDigit(b) && IsHexDigit(c) && IsHexDigit(d)
    ensures IsH16([a, b, c, d])
    ensures HexValue([a, b, c, d]) == 4096 * DigitValue(a) + 256 * DigitValue(b) + 16 * DigitValue(c) + DigitValue(d)
  {
    HexSnoc("", a);
    HexSnoc([a], b);
    HexSnoc([a, b], c);
    HexSnoc([a, b, c], d);
    assert "" + [a] == [a] && [a] + [b] == [a, b] && [a, b] + [c] == [a, b, c] && [a, b, c] + [d] == [a, b, c, d];
  }

  lemma DigitsOfUnit(u: nat)
    requires u < 0x10000
    ensures u / 4096 < 16
    ensures u == 4096 * (u / 4096) + 256 * (u / 256 % 16) + 16 * (u / 16 % 16) + u % 16
  {
    assert u / 16 == 16 * (u / 256) + u / 16 % 16;
    assert u / 256 == 16 * (u / 4096) + u / 256 % 16;
  }

  lemma GroupRoundTrip(u: nat)
    requires u < 0x10000
    ensures IsH16(GroupOf(u)) && HexValue(GroupOf(u)) == u
  {
    var a, b, c, d := u / 4096, u / 256 % 16, u / 16 % 16, u % 16;
    DigitsOfUnit(u);
    DigitRoundTrip(a);
    DigitRoundTrip(b);
    DigitRoundTrip(c);
    DigitRoundTrip(d);
    FourDigits(HexDigitOf(a), HexDigitOf(b), HexDigitOf(c), HexDigitOf(d));
  }

  predicate IsAddress6(us: seq<nat>) {
    |us| == 8 && forall i | 0 <= i < 8 :: us[i] < 0x10000
  }

  // The eight groups written in full, as a reading.
  function FullWord(us: seq<nat>): Reading
    requires IsAddress6(us)
  {
    Reading(false, false, seq(7, i requires 0 <= i < 7 => GroupOf(us[i])), NoGap, [], [], GroupOf(us[7]))
  }

  lemma EveryAddressHasAWord(us: seq<nat>)
    requires IsAddress6(us)
    ensures IsIPv6(Text(FullWord(us))) && Pton6(Text(FullWord(us))) == Some(us)
  {
    var r := FullWord(us);
    forall i | 0 <= i < 8 ensures IsH16(GroupOf(us[i])) && HexValue(GroupOf(us[i])) == us[i] {
      GroupRoundTrip(us[i]);
    }
    assert WellFormed(r) && Complete6(r);
    ScanComplete(r);
    IPv6IsRead(Text(r));
    assert Units(r) == us;
  }

  lemma {:induction false} HexValueFits(h: string)
    requires IsHexText(h) && |h| <= 4
    ensures HexValue(h) < (if |h| == 0 then 1 else if |h| == 1 then 16 else if |h| == 2 then 256
                           else if |h| == 3 then 4096 else 0x10000)
    decreases |h|
  {
    if h != "" {
      HexValueFits(h[..|h| - 1]);
    }
  }

  lemma GroupValuesFit(gs: seq<string>)
    requires AllH16(gs)
    ensures forall i | 0 <= i < |gs| :: GroupValues(gs)[i] < 0x10000
  {
    forall i | 0 <= i < |gs| ensures HexValue(gs[i]) < 0x10000 {
      HexValueFits(gs[i]);
    }
  }

  lemma OctetFits(o: string)
    requires IsDecOctet(o)
    ensures OctetValue(o) < 256
  {
  }

  // Each unit has 16 bits.
  predicate AllFit(us: seq<nat>) {
    forall i | 0 <= i < |us| :: us[i] < 0x10000
  }

  lemma ConcatFits(a: seq<nat>, b: seq<nat>)
    requires AllFit(a) && AllFit(b)
    ensures AllFit(a + b)
  {
  }

  lemma LastUnitsFit(quad: seq<string>, tok: string)
    requires AllOctets(quad) && if quad == [] then tok == "" || IsH16(tok) else |quad| == 3 && IsDecOctet(tok)
    ensures AllFit(LastUnits(quad, tok))
  {
    if quad == [] {
      if tok != "" {
        HexValueFits(tok);
      }
    } else {
      OctetFits(quad[0]);
      OctetFits(quad[1]);
      OctetFits(quad[2]);
      OctetFits(tok);
      hide OctetValue, IsDecOctet;
    }
  }

  lemma UnitsFit(r: Reading)
    requires WellFormed(r) && Complete6(r)
    ensures IsAddress6(Units(r))
  {
    var l, t := GroupValues(r.left), GroupValues(r.right) + LastUnits(r.quad, r.tok);
    GroupValuesFit(r.left);
    GroupValuesFit(r.right);
    LastUnitsFit(r.quad, r.tok);
    assert AllFit(Zeros(8 - |l| - |t|));
    assert AllFit(l) && AllFit(GroupValues(r.right));
    assert Units(r) == l + Zeros(8 - |l| - |t|) + t;
    hide Units, GroupValues, LastUnits, Zeros, WellFormed, Complete6, AllH16, AllOctets;
    ConcatFits(GroupValues(r.right), LastUnits(r.quad, r.tok));
    ConcatFits(l, Zeros(8 - |l| - |t|));
    ConcatFits(l + Zeros(8 - |l| - |t|), t);
  }

  // Two words stand for the same address exactly when the full word of one is the other's.
  lemma SameAddressSameFullWord(s: string, t: string)
    requires IsIPv6(s) && IsIPv6(t)
    ensures Pton6(s).Some? && IsAddress6(Pton6(s).value) && Pton6(t).Some? && IsAddress6(Pton6(t).value)
    ensures Pton6(s) == Pton6(t) <==> Text(FullWord(Pton6(s).value)) == Text(FullWord(Pton6(t).value))
  {
    PtonAcceptsTheGrammar(s);
    PtonAcceptsTheGrammar(t);
    ScanSound(s);
    ScanSound(t);
    UnitsFit(Scan(s).value);
    UnitsFit(Scan(t).value);
    EveryAddressHasAWord(Pton6(s).value);
    EveryAddressHasAWord(Pton6(t).value);
  }

  // -------- IPv4 words, and IPv4 addresses inside IPv6 words --------

  function DecimalOf(n: nat): string
    requires n < 256
  {
    if n < 10 then [HexDigitOf(n)]
    else if n < 100 then [HexDigitOf(n / 10), HexDigitOf(n % 10)]
    else [HexDigitOf(n / 100), HexDigitOf(n / 10 % 10), HexDigitOf(n % 10)]
  }

  lemma DecimalDigit(d: nat)
    requires d < 10
    ensures IsDigit(HexDigitOf(d)) && DigitValue(HexDigitOf(d)) == d
    ensures HexDigitOf(d) as int == '0' as int + d
  {
  }

  lemma DecimalRoundTrip(n: nat)
    requires n < 256
    ensures IsDecOctet(DecimalOf(n)) && OctetValue(DecimalOf(n)) == n
  {
    if n < 10 {
      DecimalDigit(n);
    } else if n < 100 {
      DecimalDigit(n / 10);
      DecimalDigit(n % 10);
    } else {
      var a, b, c := n / 100, n / 10 % 10, n % 10;
      assert n == 100 * a + 10 * b + c && (a == 1 || (a == 2 && (b < 5 || (b == 5 && c < 6)))) by {
        assert n / 10 == 10 * (n / 100) + n / 10 % 10;
      }
      DecimalDigit(a);
      DecimalDigit(b);
      DecimalDigit(c);
    }
  }

  lemma PtonOfQuad(quad: seq<string>, tok: string)
    requires |quad| == 3 && AllOctets(quad) && IsDecOctet(tok)
    ensures IsIPv4(Ended(quad, '.') + tok) && Pton4(Ended(quad, '.') + tok) == Some(Octets(quad, tok))
  {
    var r := QuadReading(quad, tok);
    QuadIsComplete(quad, tok);
    QuadText(quad, tok);
    ScanComplete(r);
    IPv4FromReading(r);
    hide IsIPv4, Ended, Text, Scan, WellFormed, Complete4, IsDecOctet, Octets;
  }

  lemma EveryIPv4AddressHasAWord(a: nat, b: nat, c: nat, d: nat)
    requires a < 256 && b < 256 && c < 256 && d < 256
    ensures var s := DecimalOf(a) + "." + DecimalOf(b) + "." + DecimalOf(c) + "." + DecimalOf(d);
            IsIPv4(s) && Pton4(s) == Some([a, b, c, d])
  {
    DecimalRoundTrip(a);
    DecimalRoundTrip(b);
    DecimalRoundTrip(c);
    DecimalRoundTrip(d);
    hide IsIPv4, Pton4, Ended, IsDecOctet, OctetValue, DecimalOf;
    ThreeOctets(DecimalOf(a), DecimalOf(b), DecimalOf(c));
    PtonOfQuad([DecimalOf(a), DecimalOf(b), DecimalOf(c)], DecimalOf(d));
  }

  // A reading with its IPv4 tail replaced by two groups.
  function WithTwoGroups(r: Reading, g: string, h: string): Reading {
    if r.gap.NoGap? then r.(left := r.left + [g], quad := [], tok := h)
    else r.(right := r.right + [g], quad := [], tok := h)
  }

  lemma GroupValuesSnoc(gs: seq<string>, g: string)
    requires AllH16(gs) && IsH16(g)
    ensures AllH16(gs + [g]) && GroupValues(gs + [g]) == GroupValues(gs) + [HexValue(g)]
  {
    assert (gs + [g])[..|gs|] == gs;
  }

  lemma TwoGroupsWellFormed(r: Reading, g: string, h: string)
    requires WellFormed(r) && Complete6(r) && !r.bracket && r.quad != [] && IsH16(g) && IsH16(h)
    ensures WellFormed(WithTwoGroups(r, g, h)) && Complete6(WithTwoGroups(r, g, h))
    ensures !WithTwoGroups(r, g, h).bracket
  {
  }

  predicate SameBits(r: Reading, g: string, h: string)
    requires |r.quad| == 3 && AllOctets(r.quad) && IsDecOctet(r.tok) && IsH16(g) && IsH16(h)
  {
    && HexValue(g) == 256 * OctetValue(r.quad[0]) + OctetValue(r.quad[1])
    && HexValue(h) == 256 * OctetValue(r.quad[2]) + OctetValue(r.tok)
  }

  lemma TwoGroupsLast(r: Reading, g: string, h: string)
    requires WellFormed(r) && Complete6(r) && !r.bracket && r.quad != [] && IsH16(g) && IsH16(h) && SameBits(r, g, h)
    ensures LastUnits(r.quad, r.tok) == [HexValue(g)] + LastUnits([], h)
  {
    hide HexValue, OctetValue, IsDecOctet, AllH16;
  }

  lemma Insert(a: seq<nat>, b: seq<nat>, c: seq<nat>)
    ensures (a + b) + c == a + (b + c)
  {
  }

  lemma TwoGroupsUnits(r: Reading, g: string, h: string)
    requires WellFormed(r) && Complete6(r) && !r.bracket && r.quad != [] && IsH16(g) && IsH16(h)
    requires WellFormed(WithTwoGroups(r, g, h)) && Complete6(WithTwoGroups(r, g, h)) && SameBits(r, g, h)
    ensures Units(WithTwoGroups(r, g, h)) == Units(r)
  {
    TwoGroupsLast(r, g, h);
    if r.gap.NoGap? {
      TwoGroupsInFull(r, g, h);
    } else {
      TwoGroupsAfterGap(r, g, h);
    }
    hide Units, LastUnits, HexValue, WellFormed, Complete6;
  }

  lemma TwoGroupsInFull(r: Reading, g: string, h: string)
    requires WellFormed(r) && Complete6(r) && r.quad != [] && IsH16(g) && IsH16(h) && r.gap.NoGap?
    requires WellFormed(WithTwoGroups(r, g, h)) && Complete6(WithTwoGroups(r, g, h))
    requires LastUnits(r.quad, r.tok) == [HexValue(g)] + LastUnits([], h)
    ensures Units(WithTwoGroups(r, g, h)) == Units(r)
  {
    hide Units, LastUnits, GroupValues, HexValue, IsDecOctet;
    UnitsWithoutGap(r);
    UnitsWithoutGap(WithTwoGroups(r, g, h));
    GroupValuesSnoc(r.left, g);
    Insert(GroupValues(r.left), [HexValue(g)], LastUnits([], h));
  }

  lemma TwoGroupsAfterGap(r: Reading, g: string, h: string)
    requires WellFormed(r) && Complete6(r) && r.quad != [] && IsH16(g) && IsH16(h) && r.gap.FullGap?
    requires WellFormed(WithTwoGroups(r, g, h)) && Complete6(WithTwoGroups(r, g, h))
    requires LastUnits(r.quad, r.tok) == [HexValue(g)] + LastUnits([], h)
    ensures Units(WithTwoGroups(r, g, h)) == Units(r)
  {
    hide LastUnits, GroupValues, HexValue, IsDecOctet;
    var w := WithTwoGroups(r, g, h);
    assert w.left == r.left && w.right == r.right + [g] && w.quad == [] && w.tok == h;
    GroupValuesSnoc(r.right, g);
    Insert(GroupValues(r.right), [HexValue(g)], LastUnits([], h));
    assert GroupValues(w.right) + LastUnits(w.quad, w.tok) == GroupValues(r.right) + LastUnits(r.quad, r.tok);
  }

  // An IPv4 address at the end of an IPv6 word is the two groups with the same 32 bits.
  lemma QuadTailIsTwoGroups(r: Reading, g: string, h: string)
    requires WellFormed(r) && Complete6(r) && !r.bracket && r.quad != [] && IsH16(g) && IsH16(h)
    requires SameBits(r, g, h)
    ensures WellFormed(WithTwoGroups(r, g, h)) && Pton6(Text(WithTwoGroups(r, g, h))) == Pton6(Text(r))
  {
    TwoGroupsWellFormed(r, g, h);
    TwoGroupsUnits(r, g, h);
    PtonOfReading(r);
    PtonOfReading(WithTwoGroups(r, g, h));
  }
}
