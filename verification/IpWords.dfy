/**
  The nine overlapping alternatives of IPv6address, the counting form of section 2.2 of
  RFC 4291 and the reader of IpReading accept the same strings.
 */
module IpWords {
  import opened Wrappers
  import opened IpGrammar
  import opened IpReading

  // `n` groups separated by single colons.
  ghost predicate IsPlain(n: nat, s: string) {
    || (n == 0 && s == "")
    || exists gs: seq<string>, t: string ::
      AllH16(gs) && IsH16(t) && n == |gs| + 1 && s == Ended(gs, ':') + t
  }

  // `n` units of 16 bits separated by single colons; a final IPv4address is two units.
  ghost predicate IsUnits(n: nat, s: string) {
    || IsPlain(n, s)
    || exists gs: seq<string>, t: string ::
      AllH16(gs) && IsIPv4(t) && n == |gs| + 2 && s == Ended(gs, ':') + t
  }

  // Eight units, or at most seven around one "::".
  ghost predicate IsCounted(s: string) {
    || IsUnits(8, s)
    || exists a: nat, b: nat, l, r :: a + b <= 7 && IsPlain(a, l) && IsUnits(b, r) && s == l + "::" + r
  }

  // -------- how texts are put together --------

  lemma Regroup(a: string, b: string, c: string)
    ensures a + b + c == a + (b + c)
  {
  }

  lemma Regroup4(a: string, b: string, c: string, d: string)
    ensures a + b + c + d == a + (b + c + d)
    ensures a + b + c + d == a + b + (c + d)
  {
  }

  lemma ThreeOctets(a: string, b: string, c: string)
    ensures Ended([a, b, c], '.') == a + "." + b + "." + c + "."
  {
    EndedSnoc([a, b], c, '.');
    EndedSnoc([a], b, '.');
    EndedSnoc([], a, '.');
    assert [a, b] + [c] == [a, b, c] && [a] + [b] == [a, b] && [] + [a] == [a];
  }

  lemma OpenText(r: Reading)
    requires !r.closed
    ensures Text(r) == Head(r.bracket, r.left, r.gap) + (Ended(r.right, ':') + Ended(r.quad, '.') + r.tok)
  {
    Regroup4(Head(r.bracket, r.left, r.gap), Ended(r.right, ':'), Ended(r.quad, '.'), r.tok);
  }

  lemma TextWithoutGap(r: Reading)
    requires !r.closed && !r.bracket && r.gap.NoGap? && r.right == []
    ensures Text(r) == Ended(r.left, ':') + Ended(r.quad, '.') + r.tok
  {
  }

  // -------- from the rules to the counting form --------

  lemma {:induction false} GroupsFromRule(n: nat, s: string) returns (gs: seq<string>)
    requires IsH16Groups(n, s)
    ensures |gs| == n && AllH16(gs) && Ended(gs, ':') == s
  {
    if n == 0 {
      gs := [];
    } else {
      var t, h :| IsH16Groups(n - 1, t) && IsH16(h) && s == t + h + ":";
      var init := GroupsFromRule(n - 1, t);
      gs := init + [h];
      EndedSnoc(init, h, ':');
    }
  }

  lemma {:induction false} RuleFromGroups(gs: seq<string>)
    requires AllH16(gs)
    ensures IsH16Groups(|gs|, Ended(gs, ':'))
  {
    if gs != [] {
      var init, h := gs[..|gs| - 1], gs[|gs| - 1];
      RuleFromGroups(init);
      assert IsH16Groups(|init|, Ended(init, ':')) && IsH16(h);
    }
  }

  lemma LeftSideIsPlain(k: nat, s: string) returns (a: nat)
    requires IsLeftSide(k, s)
    ensures a <= k + 1 && IsPlain(a, s)
  {
    if s == "" {
      a := 0;
    } else {
      var n: nat, g, h :| n <= k && IsH16Groups(n, g) && IsH16(h) && s == g + h;
      var gs := GroupsFromRule(n, g);
      a := n + 1;
      assert AllH16(gs) && IsH16(h) && a == |gs| + 1 && s == Ended(gs, ':') + h;
    }
  }

  lemma RightSideIsUnits(m: nat, g: string, l: string)
    requires IsH16Groups(m, g) && IsLs32(l)
    ensures IsUnits(m + 2, g + l)
  {
    var gs := GroupsFromRule(m, g);
    if IsIPv4(l) {
      assert AllH16(gs) && IsIPv4(l) && m + 2 == |gs| + 2 && g + l == Ended(gs, ':') + l;
    } else {
      var a, b :| IsH16(a) && IsH16(b) && l == a + ":" + b;
      EndedSnoc(gs, a, ':');
      assert g + l == Ended(gs + [a], ':') + b;
      assert AllH16(gs + [a]) && IsH16(b) && m + 2 == |gs + [a]| + 1;
    }
  }

  lemma CountedAround(a: nat, b: nat, l: string, t: string)
    requires a + b <= 7 && IsPlain(a, l) && IsUnits(b, t)
    ensures IsCounted(l + "::" + t)
  {
  }

  lemma GapLs32IsCounted(k: nat, m: nat, s: string)
    requires k + m == 4 && IsGapLs32(k, m, s)
    ensures IsCounted(s)
  {
    var left, g, l :| IsLeftSide(k, left) && IsH16Groups(m, g) && IsLs32(l) && s == left + "::" + g + l;
    var a := LeftSideIsPlain(k, left);
    RightSideIsUnits(m, g, l);
    Regroup4(left, "::", g, l);
    CountedAround(a, m + 2, left, g + l);
  }

  lemma FullFormIsCounted(s: string)
    requires exists g, l :: IsH16Groups(6, g) && IsLs32(l) && s == g + l
    ensures IsUnits(8, s)
  {
    var g, l :| IsH16Groups(6, g) && IsLs32(l) && s == g + l;
    RightSideIsUnits(6, g, l);
  }

  lemma LeadingGapIsCounted(s: string)
    requires exists g, l :: IsH16Groups(5, g) && IsLs32(l) && s == "::" + g + l
    ensures IsCounted(s)
  {
    var g, l :| IsH16Groups(5, g) && IsLs32(l) && s == "::" + g + l;
    RightSideIsUnits(5, g, l);
    LeadingText(g, l);
    assert IsPlain(0, "");
    hide IsUnits, IsPlain, IsCounted, IsH16Groups, IsLs32;
    CountedAround(0, 7, "", g + l);
  }

  lemma LeadingText(g: string, l: string)
    ensures "::" + g + l == "" + "::" + (g + l)
  {
  }

  lemma GapH16IsCounted(s: string)
    requires exists left, h :: IsLeftSide(5, left) && IsH16(h) && s == left + "::" + h
    ensures IsCounted(s)
  {
    var left, h :| IsLeftSide(5, left) && IsH16(h) && s == left + "::" + h;
    var a := LeftSideIsPlain(5, left);
    var none: seq<string> := [];
    assert AllH16(none) && IsH16(h) && 1 == |none| + 1 && h == Ended(none, ':') + h;
    assert a + 1 <= 7 && IsPlain(a, left) && IsUnits(1, h);
  }

  lemma TrailingGapIsCounted(s: string)
    requires exists left :: IsLeftSide(6, left) && s == left + "::"
    ensures IsCounted(s)
  {
    var left :| IsLeftSide(6, left) && s == left + "::";
    var a := LeftSideIsPlain(6, left);
    assert s == left + "::" + "";
    assert a + 0 <= 7 && IsPlain(a, left) && IsUnits(0, "");
  }

  lemma RulesAreCounted(s: string)
    requires IsIPv6(s)
    ensures IsCounted(s)
  {
    if exists g, l :: IsH16Groups(6, g) && IsLs32(l) && s == g + l {
      FullFormIsCounted(s);
    } else if exists g, l :: IsH16Groups(5, g) && IsLs32(l) && s == "::" + g + l {
      LeadingGapIsCounted(s);
    } else if IsGapLs32(0, 4, s) {
      GapLs32IsCounted(0, 4, s);
    } else if IsGapLs32(1, 3, s) {
      GapLs32IsCounted(1, 3, s);
    } else if IsGapLs32(2, 2, s) {
      GapLs32IsCounted(2, 2, s);
    } else if IsGapLs32(3, 1, s) {
      GapLs32IsCounted(3, 1, s);
    } else if IsGapLs32(4, 0, s) {
      GapLs32IsCounted(4, 0, s);
    } else if exists left, h :: IsLeftSide(5, left) && IsH16(h) && s == left + "::" + h {
      GapH16IsCounted(s);
    } else {
      TrailingGapIsCounted(s);
    }
  }

  // -------- from the counting form to the reader --------

  // Four octets as the reader holds them.
  lemma OctetsOf(t: string) returns (quad: seq<string>, tok: string)
    requires IsIPv4(t)
    ensures |quad| == 3 && AllOctets(quad) && IsDecOctet(tok) && t == Ended(quad, '.') + tok
  {
    var a, b, c, d :|
      && IsDecOctet(a) && IsDecOctet(b) && IsDecOctet(c) && IsDecOctet(d)
      && t == a + "." + b + "." + c + "." + d;
    quad, tok := [a, b, c], d;
    ThreeOctets(a, b, c);
  }

  lemma OctetsTo(quad: seq<string>, tok: string)
    requires |quad| == 3 && AllOctets(quad) && IsDecOctet(tok)
    ensures IsIPv4(Ended(quad, '.') + tok)
  {
    var a, b, c := quad[0], quad[1], quad[2];
    assert quad == [a, b, c];
    ThreeOctets(a, b, c);
    assert IsDecOctet(a) && IsDecOctet(b) && IsDecOctet(c);
  }

  // The tail of a side: its ended groups, its octets and its last token.
  lemma UnitsOf(n: nat, s: string) returns (gs: seq<string>, quad: seq<string>, tok: string)
    requires IsUnits(n, s)
    ensures AllH16(gs) && AllOctets(quad) && s == Ended(gs, ':') + Ended(quad, '.') + tok
    ensures if n == 0 then gs == quad == [] && tok == ""
            else if quad == [] then |gs| == n - 1 && IsH16(tok)
            else |quad| == 3 && |gs| == n - 2 && IsDecOctet(tok)
  {
    if n == 0 {
      gs, quad, tok := [], [], "";
    } else if IsPlain(n, s) {
      var gs', t' :| AllH16(gs') && IsH16(t') && n == |gs'| + 1 && s == Ended(gs', ':') + t';
      gs, quad, tok := gs', [], t';
      assert Ended(gs, ':') + Ended(quad, '.') == Ended(gs, ':');
    } else {
      var gs', t' :| AllH16(gs') && IsIPv4(t') && n == |gs'| + 2 && s == Ended(gs', ':') + t';
      gs := gs';
      quad, tok := OctetsOf(t');
      Regroup(Ended(gs, ':'), Ended(quad, '.'), tok);
    }
  }

  lemma PlainOf(n: nat, s: string) returns (gs: seq<string>)
    requires IsPlain(n, s)
    ensures |gs| == n && AllH16(gs) && Head(false, gs, FullGap) == s + "::"
  {
    if n == 0 {
      gs := [];
    } else {
      var gs', t' :| AllH16(gs') && IsH16(t') && n == |gs'| + 1 && s == Ended(gs', ':') + t';
      gs := gs' + [t'];
      EndedSnoc(gs', t', ':');
    }
  }

  lemma UnitsAreRead(s: string) returns (r: Reading)
    requires IsUnits(8, s)
    ensures WellFormed(r) && !r.bracket && Complete6(r) && Text(r) == s
  {
    var gs, quad, tok := UnitsOf(8, s);
    r := Reading(false, false, gs, NoGap, [], quad, tok);
    TextWithoutGap(r);
  }

  // The units after the "::", an IPv4 address being two.
  function UnitsRight(r: Reading): nat {
    |r.right| + (if r.quad != [] then 2 else if r.tok == "" then 0 else 1)
  }

  lemma SidesAreRead(a: nat, b: nat, l: string, t: string) returns (r: Reading)
    requires a + b <= 7 && IsPlain(a, l) && IsUnits(b, t)
    ensures WellFormed(r) && !r.bracket && Complete6(r) && Text(r) == l + "::" + t
    ensures r.gap.FullGap? && |r.left| == a && Head(false, r.left, FullGap) == l + "::" && UnitsRight(r) == b
  {
    var left := PlainOf(a, l);
    var gs, quad, tok := UnitsOf(b, t);
    r := Reading(false, false, left, FullGap, gs, quad, tok);
    OpenText(r);
  }

  lemma CountedIsRead(s: string) returns (r: Reading)
    requires IsCounted(s)
    ensures WellFormed(r) && !r.bracket && Complete6(r) && Text(r) == s
  {
    if IsUnits(8, s) {
      r := UnitsAreRead(s);
    } else {
      var a: nat, b: nat, l, t :| a + b <= 7 && IsPlain(a, l) && IsUnits(b, t) && s == l + "::" + t;
      r := SidesAreRead(a, b, l, t);
    }
  }

  // -------- from the reader back to the rules --------

  lemma PlainIsLeftSide(gs: seq<string>, k: nat) returns (s: string)
    requires AllH16(gs) && |gs| <= k + 1
    ensures IsLeftSide(k, s) && Head(false, gs, FullGap) == s + "::"
  {
    if gs == [] {
      s := "";
    } else {
      var init, h := gs[..|gs| - 1], gs[|gs| - 1];
      RuleFromGroups(init);
      s := Ended(init, ':') + h;
      assert IsH16Groups(|init|, Ended(init, ':')) && IsH16(h);
    }
  }

  // The groups and the ls32 that end a side of at least two units.
  lemma LastTwoUnits(gs: seq<string>, quad: seq<string>, tok: string) returns (m: nat, g: string, l: string)
    requires AllH16(gs) && AllOctets(quad)
    requires if quad == [] then IsH16(tok) && gs != [] else |quad| == 3 && IsDecOctet(tok)
    ensures m == (if quad == [] then |gs| - 1 else |gs|)
    ensures IsH16Groups(m, g) && IsLs32(l) && g + l == Ended(gs, ':') + Ended(quad, '.') + tok
  {
    if quad == [] {
      m, g, l := LastTwoGroups(gs, tok);
      NoQuad(Ended(gs, ':'), tok);
    } else {
      m, g, l := LastQuad(gs, quad, tok);
    }
  }

  lemma NoQuad(a: string, tok: string)
    ensures a + Ended([], '.') + tok == a + tok
  {
  }

  lemma LastTwoGroups(gs: seq<string>, tok: string) returns (m: nat, g: string, l: string)
    requires AllH16(gs) && gs != [] && IsH16(tok)
    ensures m == |gs| - 1 && IsH16Groups(m, g) && IsLs32(l) && g + l == Ended(gs, ':') + tok
  {
    var init, h := gs[..|gs| - 1], gs[|gs| - 1];
    RuleFromGroups(init);
    assert Ended(gs, ':') == Ended(init, ':') + h + ":";
    m, g, l := |init|, Ended(init, ':'), h + ":" + tok;
    assert IsH16(h) && IsH16(tok);
    hide IsH16Groups, AllH16, IsH16, Ended;
    Regroup4(g, h, ":", tok);
    Regroup(h, ":", tok);
  }

  lemma LastQuad(gs: seq<string>, quad: seq<string>, tok: string) returns (m: nat, g: string, l: string)
    requires AllH16(gs) && AllOctets(quad) && |quad| == 3 && IsDecOctet(tok)
    ensures m == |gs| && IsH16Groups(m, g) && IsLs32(l) && g + l == Ended(gs, ':') + Ended(quad, '.') + tok
  {
    RuleFromGroups(gs);
    OctetsTo(quad, tok);
    m, g, l := |gs|, Ended(gs, ':'), Ended(quad, '.') + tok;
    Regroup(g, Ended(quad, '.'), tok);
  }

  // Four of the nine alternatives, as facts about the whole.
  lemma TrailingGapIsIPv6(left: string)
    requires IsLeftSide(6, left)
    ensures IsIPv6(left + "::")
  {
  }

  lemma GapH16IsIPv6(left: string, h: string)
    requires IsLeftSide(5, left) && IsH16(h)
    ensures IsIPv6(left + "::" + h)
  {
  }

  lemma LeadingGapIsIPv6(g: string, l: string)
    requires IsH16Groups(5, g) && IsLs32(l)
    ensures IsIPv6("::" + g + l)
  {
  }

  lemma FullFormIsIPv6(g: string, l: string)
    requires IsH16Groups(6, g) && IsLs32(l)
    ensures IsIPv6(g + l)
  {
  }

  lemma NothingAfter(h: string, t: string)
    ensures h + (Ended([], ':') + Ended([], '.') + t) == h + t
    ensures h + "" == h
  {
  }

  lemma ReadTrailingGap(r: Reading)
    requires WellFormed(r) && !r.bracket && Complete6(r) && r.gap.FullGap? && r.tok == ""
    ensures IsIPv6(Text(r))
  {
    assert r.quad == [] && r.right == [] && !r.closed;
    hide IsIPv6, Text, Ended, Head, IsLeftSide, IsH16, IsDecOctet;
    var left := PlainIsLeftSide(r.left, 6);
    OpenText(r);
    NothingAfter(Head(false, r.left, r.gap), "");
    TrailingGapIsIPv6(left);
  }

  lemma ReadGapH16(r: Reading)
    requires WellFormed(r) && !r.bracket && Complete6(r) && r.gap.FullGap?
    requires r.tok != "" && r.quad == [] && r.right == []
    ensures IsIPv6(Text(r))
  {
    assert !r.closed && |r.left| <= 6 && IsH16(r.tok);
    hide IsIPv6, Text, Ended, Head, IsLeftSide, IsH16, IsDecOctet;
    var left := PlainIsLeftSide(r.left, 5);
    OpenText(r);
    NothingAfter(Head(false, r.left, r.gap), r.tok);
    GapH16IsIPv6(left, r.tok);
  }

  lemma ReadGapLs32(r: Reading)
    requires WellFormed(r) && !r.bracket && Complete6(r) && r.gap.FullGap?
    requires r.tok != "" && (r.quad != [] || r.right != [])
    ensures IsIPv6(Text(r))
  {
    assert !r.closed;
    hide IsIPv6, Text, Ended, Head, IsLeftSide, IsH16, IsDecOctet, IsH16Groups, IsLs32;
    var m, g, l := LastTwoUnits(r.right, r.quad, r.tok);
    OpenText(r);
    if m == 5 {
      assert r.left == [];
      LeadingHead();
      Regroup("::", g, l);
      LeadingGapIsIPv6(g, l);
    } else {
      var left := PlainIsLeftSide(r.left, 4 - m);
      Regroup4(left, "::", g, l);
      GapLs32Holds(4 - m, m, left, g, l);
      GapLs32IsIPv6(4 - m, m, left + "::" + g + l);
    }
  }

  lemma LeadingHead()
    ensures Head(false, [], FullGap) == "::"
  {
  }

  lemma GapLs32Holds(k: nat, m: nat, left: string, g: string, l: string)
    requires IsLeftSide(k, left) && IsH16Groups(m, g) && IsLs32(l)
    ensures IsGapLs32(k, m, left + "::" + g + l)
  {
  }

  lemma GapLs32IsIPv6(k: nat, m: nat, s: string)
    requires k + m == 4 && IsGapLs32(k, m, s)
    ensures IsIPv6(s)
  {
    if k == 0 {
      assert IsGapLs32(0, 4, s);
    } else if k == 1 {
      assert IsGapLs32(1, 3, s);
    } else if k == 2 {
      assert IsGapLs32(2, 2, s);
    } else if k == 3 {
      assert IsGapLs32(3, 1, s);
    } else {
      assert IsGapLs32(4, 0, s);
    }
  }

  lemma ReadIsIPv6(r: Reading)
    requires WellFormed(r) && !r.bracket && Complete6(r)
    ensures IsIPv6(Text(r))
  {
    hide IsIPv6, Text, IsH16, IsDecOctet;
    if r.gap.NoGap? {
      ReadFullForm(r);
    } else if r.tok == "" {
      ReadTrailingGap(r);
    } else if r.quad == [] && r.right == [] {
      ReadGapH16(r);
    } else {
      ReadGapLs32(r);
    }
  }

  lemma ReadFullForm(r: Reading)
    requires WellFormed(r) && !r.bracket && Complete6(r) && r.gap.NoGap?
    ensures IsIPv6(Text(r))
  {
    assert !r.closed && r.right == [];
    hide IsIPv6, Text, Ended, IsH16, IsDecOctet, IsH16Groups, IsLs32;
    var m, g, l := LastTwoUnits(r.left, r.quad, r.tok);
    TextWithoutGap(r);
    FullFormIsIPv6(g, l);
  }

  // -------- the three forms agree --------

  lemma IPv6IsCounting(s: string)
    ensures IsIPv6(s) <==> IsCounted(s)
  {
    if IsIPv6(s) {
      RulesAreCounted(s);
    }
    if IsCounted(s) {
      var r := CountedIsRead(s);
      ReadIsIPv6(r);
    }
  }

  lemma IPv6IsRead(s: string)
    ensures IsIPv6(s) <==> Scan(s).Some? && !Scan(s).value.bracket && Complete6(Scan(s).value)
  {
    ScanSound(s);
    if IsIPv6(s) {
      RulesAreCounted(s);
      var r := CountedIsRead(s);
      ScanComplete(r);
    } else if Scan(s).Some? && !Scan(s).value.bracket && Complete6(Scan(s).value) {
      ReadIsIPv6(Scan(s).value);
    }
  }

  // An IPv4 address as the reader holds it.
  function QuadReading(quad: seq<string>, tok: string): Reading {
    Reading(false, false, [], NoGap, [], quad, tok)
  }

  lemma QuadText(quad: seq<string>, tok: string)
    ensures Text(QuadReading(quad, tok)) == Ended(quad, '.') + tok
  {
    TextWithoutGap(QuadReading(quad, tok));
    NothingBefore(Ended(quad, '.'), tok);
  }

  lemma NothingBefore(a: string, b: string)
    ensures Ended([], ':') + a + b == a + b
  {
  }

  lemma QuadIsComplete(quad: seq<string>, tok: string)
    requires |quad| == 3 && AllOctets(quad) && IsDecOctet(tok)
    ensures WellFormed(QuadReading(quad, tok)) && Complete4(QuadReading(quad, tok))
  {
    hide IsH16;
  }

  lemma CompleteIsQuad(r: Reading)
    requires WellFormed(r) && Complete4(r)
    ensures r == QuadReading(r.quad, r.tok) && |r.quad| == 3 && AllOctets(r.quad) && IsDecOctet(r.tok)
  {
    hide IsDecOctet, IsH16;
  }

  lemma IPv4ToReading(s: string) returns (r: Reading)
    requires IsIPv4(s)
    ensures WellFormed(r) && Complete4(r) && Text(r) == s
  {
    var quad, tok := OctetsOf(s);
    hide IsIPv4, Text, Ended, WellFormed, Complete4;
    r := QuadReading(quad, tok);
    QuadIsComplete(quad, tok);
    QuadText(quad, tok);
  }

  lemma IPv4FromReading(r: Reading)
    requires WellFormed(r) && Complete4(r)
    ensures IsIPv4(Text(r))
  {
    CompleteIsQuad(r);
    hide IsIPv4, Text, Ended, WellFormed, Complete4;
    OctetsTo(r.quad, r.tok);
    QuadText(r.quad, r.tok);
  }

  lemma IPv4IsRead(s: string)
    ensures IsIPv4(s) <==> Scan(s).Some? && Complete4(Scan(s).value)
  {
    ScanSound(s);
    if IsIPv4(s) {
      var r := IPv4ToReading(s);
      ScanComplete(r);
    } else if Scan(s).Some? && Complete4(Scan(s).value) {
      IPv4FromReading(Scan(s).value);
    }
  }

  // The same reading without its brackets.
  function Bare(r: Reading): Reading {
    r.(bracket := false, closed := false)
  }

  lemma BracketHead(left: seq<string>, gap: Gap)
    ensures Head(true, left, gap) == "[" + Head(false, left, gap)
  {
    hide Ended;
  }

  lemma InBrackets(h: string, e: string, q: string, t: string)
    ensures ("[" + h) + e + q + t + "]" == "[" + (h + e + q + t + "") + "]"
  {
  }

  lemma BracketText(r: Reading)
    requires r.bracket && r.closed
    ensures Text(r) == "[" + Text(Bare(r)) + "]"
  {
    var h, e, q := Head(false, r.left, r.gap), Ended(r.right, ':'), Ended(r.quad, '.');
    BracketHead(r.left, r.gap);
    hide Head, Ended;
    assert Text(r) == ("[" + h) + e + q + r.tok + "]";
    assert Text(Bare(r)) == h + e + q + r.tok + "";
    InBrackets(h, e, q, r.tok);
  }

  lemma BareIsComplete(r: Reading)
    requires WellFormed(r) && r.closed
    ensures WellFormed(Bare(r)) && Complete6(Bare(r))
  {
  }

  lemma BracketedIsRead(r: Reading)
    requires WellFormed(r) && !r.bracket && Complete6(r)
    ensures Scan("[" + Text(r) + "]") == Some(r.(bracket := true, closed := true))
  {
    var b := r.(bracket := true, closed := true);
    assert Bare(b) == r && WellFormed(b);
    BracketText(b);
    ScanComplete(b);
  }

  lemma ReferenceIsClosed(s: string)
    requires IsIPv6Reference(s)
    ensures Scan(s).Some? && Scan(s).value.closed
  {
    var t := s[1..|s| - 1];
    assert s == "[" + t + "]";
    assert IsIPv6(t);
    hide IsIPv6, IsIPv6Reference, Scan, Text, WellFormed, Complete6;
    IPv6IsRead(t);
    ScanSound(t);
    BracketedIsRead(Scan(t).value);
  }

  lemma ClosedIsReference(r: Reading)
    requires WellFormed(r) && r.closed
    ensures IsIPv6Reference(Text(r)) && Text(r)[1..|Text(r)| - 1] == Text(Bare(r))
  {
    BareIsComplete(r);
    BracketText(r);
    ReadIsIPv6(Bare(r));
  }

  lemma ReferenceIsRead(s: string)
    ensures IsIPv6Reference(s) <==> Scan(s).Some? && Scan(s).value.closed
  {
    if IsIPv6Reference(s) {
      ReferenceIsClosed(s);
    } else if Scan(s).Some? && Scan(s).value.closed {
      ScanSound(s);
      ClosedIsReference(Scan(s).value);
    }
  }

  // A string has one "::" at most, and splits into units around it in one way.
  lemma SplitIsUnique(a: nat, b: nat, l: string, t: string, a': nat, b': nat, l': string, t': string)
    requires a + b <= 7 && IsPlain(a, l) && IsUnits(b, t)
    requires a' + b' <= 7 && IsPlain(a', l') && IsUnits(b', t')
    requires l + "::" + t == l' + "::" + t'
    ensures a == a' && b == b' && l == l' && t == t'
  {
    var r := SidesAreRead(a, b, l, t);
    var r' := SidesAreRead(a', b', l', t');
    ReadingIsUnique(r, r');
    assert b == b' by {
      assert UnitsRight(r) == UnitsRight(r');
    }
    assert l == (l + "::")[..|l|] && l' == (l' + "::")[..|l'|];
    assert t == (l + "::" + t)[|l| + 2..] && t' == (l' + "::" + t')[|l'| + 2..];
  }
}
