/**
  What has been read of an address so far. A reading holds the groups themselves, so
  it is both the state of a deterministic reader and a parse tree of the text read:
  `Next` consumes one character, `Text` gives the characters back.
 */
module IpReading {
  import opened Wrappers
  import opened IpGrammar

  // No "::" yet, only the first ':' of a leading "::", or a whole "::".
  datatype Gap = NoGap | HalfGap | FullGap

  datatype Reading = Reading(
    bracket: bool,          // the text starts with '['
    closed: bool,           // the final ']' has been read
    left: seq<string>,      // groups ended by ':' before the "::"
    gap: Gap,
    right: seq<string>,     // groups ended by ':' after the "::"
    quad: seq<string>,      // octets ended by '.'
    tok: string             // the unfinished group or octet
  )

  const START: Reading := Reading(false, false, [], NoGap, [], [], "")

  function Ended(parts: seq<string>, mark: char): string {
    if parts == [] then ""
    else Ended(parts[..|parts| - 1], mark) + parts[|parts| - 1] + [mark]
  }

  // Everything read up to the "::", or to the last ended group when there is none.
  function Head(bracket: bool, left: seq<string>, gap: Gap): string {
    (if bracket then "[" else "") + Ended(left, ':')
    + match gap
      case NoGap => ""
      case HalfGap => ":"
      case FullGap => if left == [] then "::" else ":"
  }

  // Everything read before the unfinished group or octet.
  function Front(r: Reading): string {
    Head(r.bracket, r.left, r.gap) + Ended(r.right, ':') + Ended(r.quad, '.')
  }

  function Text(r: Reading): string {
    Front(r) + r.tok + (if r.closed then "]" else "")
  }

  predicate AllH16(gs: seq<string>) {
    forall i | 0 <= i < |gs| :: IsH16(gs[i])
  }

  predicate AllOctets(os: seq<string>) {
    forall i | 0 <= i < |os| :: IsDecOctet(os[i])
  }

  // An IPv4 address on its own, not the tail of an IPv6 one.
  predicate PureQuad(r: Reading) {
    r.quad != [] && r.left == [] && r.gap.NoGap?
  }

  // Units of 16 bits that still fit when there is a "::", which stands for at least one.
  function Room(r: Reading): int {
    7 - |r.left| - |r.right|
  }

  // Where an octet may be read: alone, as the last two of eight units, or after a "::"
  // with two units left.
  predicate QuadFits(r: Reading) {
    || (r.gap.NoGap? && r.left == [] && !r.bracket)
    || (r.gap.NoGap? && |r.left| == 6)
    || (r.gap.FullGap? && Room(r) >= 2)
  }

  predicate Complete4(r: Reading) {
    PureQuad(r) && |r.quad| == 3 && r.tok != ""
  }

  predicate Complete6(r: Reading) {
    && !r.closed && !PureQuad(r)
    && match r.gap
       case NoGap => r.tok != "" && (if r.quad == [] then |r.left| == 7 else |r.quad| == 3)
       case HalfGap => false
       case FullGap => if r.quad == [] then r.tok != "" || r.right == [] else |r.quad| == 3 && r.tok != ""
  }

  predicate WellFormed(r: Reading) {
    && AllH16(r.left) && AllH16(r.right) && AllOctets(r.quad)
    && |r.left| <= 7 && |r.quad| <= 3
    && (r.gap.HalfGap? ==> r.left == [] && r.quad == [] && r.tok == "")
    && (!r.gap.FullGap? ==> r.right == [])
    && (r.gap.FullGap? ==> Room(r) >= (if r.right == [] && r.tok == "" then 0 else 1))
    && (if r.quad == [] then r.tok == "" || IsH16(r.tok) else QuadFits(r) && (r.tok == "" || IsDecOctet(r.tok)))
    && (r.closed ==> r.bracket && Complete6(r.(closed := false)))
  }

  function OnColon(r: Reading): Option<Reading> {
    if r.quad != [] then
      None
    else if r.tok == "" then
      match r.gap
      case NoGap => if r.left == [] then Some(r.(gap := HalfGap)) else Some(r.(gap := FullGap))
      case HalfGap => Some(r.(gap := FullGap))
      case FullGap => None
    else if r.gap.FullGap? then
      if Room(r) >= 2 then Some(r.(right := r.right + [r.tok], tok := "")) else None
    else
      if |r.left| < 7 then Some(r.(left := r.left + [r.tok], tok := "")) else None
  }

  function OnDot(r: Reading): Option<Reading> {
    if IsDecOctet(r.tok) && |r.quad| < 3 && QuadFits(r) then
      Some(r.(quad := r.quad + [r.tok], tok := ""))
    else
      None
  }

  function OnHexDigit(r: Reading, c: char): Option<Reading> {
    if r.gap.HalfGap? then
      None
    else if r.quad != [] then
      if IsDecOctet(r.tok + [c]) then Some(r.(tok := r.tok + [c])) else None
    else
      if |r.tok| < 4 && (r.gap.FullGap? ==> Room(r) >= 1) then Some(r.(tok := r.tok + [c])) else None
  }

  // The reading after one more character, or None when no address continues that way.
  function Next(r: Reading, c: char): Option<Reading> {
    if r.closed then None
    else if c == ':' then OnColon(r)
    else if c == '.' then OnDot(r)
    else if c == '[' then if r == START then Some(r.(bracket := true)) else None
    else if c == ']' then if r.bracket && Complete6(r) then Some(r.(closed := true)) else None
    else if IsHexDigit(c) then OnHexDigit(r, c)
    else None
  }

  // Reads a whole string from the left.
  function Scan(s: string): Option<Reading> {
    if s == "" then
      Some(START)
    else
      match Scan(s[..|s| - 1])
      case None => None
      case Some(r) => Next(r, s[|s| - 1])
  }

  lemma EndedSnoc(parts: seq<string>, p: string, mark: char)
    ensures Ended(parts + [p], mark) == Ended(parts, mark) + p + [mark]
  {
    assert (parts + [p])[..|parts|] == parts;
  }

  lemma HeadAfterGroup(bracket: bool, left: seq<string>, g: string)
    ensures Head(bracket, left + [g], NoGap) == Head(bracket, left, NoGap) + g + ":"
  {
    EndedSnoc(left, g, ':');
  }

  lemma HeadAfterColon(bracket: bool, left: seq<string>)
    ensures Head(bracket, left, FullGap) == Head(bracket, left, if left == [] then HalfGap else NoGap) + ":"
    ensures left == [] ==> Head(bracket, left, HalfGap) == Head(bracket, left, NoGap) + ":"
  {
  }

  lemma TailAfterGroup(head: string, right: seq<string>, g: string)
    ensures head + Ended(right + [g], ':') + Ended([], '.') == head + Ended(right, ':') + Ended([], '.') + g + ":"
  {
    EndedSnoc(right, g, ':');
  }

  lemma EmptyTail(head: string, g: string)
    ensures head + Ended([], ':') + Ended([], '.') == head
    ensures head + Ended([], ':') + Ended([], '.') + g + ":" == head + g + ":"
    ensures head + "" == head
  {
  }

  lemma OnColonText(r: Reading)
    requires WellFormed(r) && !r.closed && OnColon(r).Some?
    ensures Front(OnColon(r).value) == Front(r) + r.tok + ":"
  {
    assert r.quad == [];
    if r.tok == "" {
      assert r.right == [];
      HeadAfterColon(r.bracket, r.left);
      EmptyTail(Head(r.bracket, r.left, r.gap), "");
      EmptyTail(Head(r.bracket, r.left, OnColon(r).value.gap), "");
    } else if r.gap.FullGap? {
      TailAfterGroup(Head(r.bracket, r.left, r.gap), r.right, r.tok);
    } else {
      assert r.right == [] && r.gap.NoGap?;
      HeadAfterGroup(r.bracket, r.left, r.tok);
      EmptyTail(Head(r.bracket, r.left, r.gap), r.tok);
      EmptyTail(Head(r.bracket, r.left + [r.tok], r.gap), "");
    }
  }

  lemma OnColonWellFormed(r: Reading)
    requires WellFormed(r) && !r.closed && OnColon(r).Some?
    ensures WellFormed(OnColon(r).value) && OnColon(r).value.tok == "" && !OnColon(r).value.closed
  {
  }

  lemma OnDotKeeps(r: Reading)
    requires WellFormed(r) && !r.closed && OnDot(r).Some?
    ensures WellFormed(OnDot(r).value) && OnDot(r).value.tok == "" && !OnDot(r).value.closed
    ensures Front(OnDot(r).value) == Front(r) + r.tok + "."
  {
    EndedSnoc(r.quad, r.tok, '.');
  }

  lemma OnHexDigitKeeps(r: Reading, c: char)
    requires WellFormed(r) && !r.closed && IsHexDigit(c) && OnHexDigit(r, c).Some?
    ensures WellFormed(OnHexDigit(r, c).value)
    ensures OnHexDigit(r, c).value == r.(tok := r.tok + [c])
  {
  }

  lemma NextWellFormed(r: Reading, c: char)
    requires WellFormed(r) && Next(r, c).Some?
    ensures WellFormed(Next(r, c).value)
  {
    if c == ':' {
      OnColonWellFormed(r);
    } else if c == '.' {
      OnDotKeeps(r);
    } else if IsHexDigit(c) {
      OnHexDigitKeeps(r, c);
    }
  }

  lemma OpenTextIs(r: Reading)
    requires !r.closed
    ensures Text(r) == Front(r) + r.tok
    ensures r.tok == "" ==> Text(r) == Front(r)
  {
  }

  lemma DigitText(r: Reading, c: char)
    requires !r.closed
    ensures Text(r.(tok := r.tok + [c])) == Text(r) + [c]
  {
    OpenTextIs(r);
    OpenTextIs(r.(tok := r.tok + [c]));
    assert Front(r) + (r.tok + [c]) == Front(r) + r.tok + [c];
  }

  lemma NextText(r: Reading, c: char)
    requires WellFormed(r) && Next(r, c).Some?
    ensures Text(Next(r, c).value) == Text(r) + [c]
  {
    OpenTextIs(r);
    if c == ':' {
      OnColonText(r);
      OnColonWellFormed(r);
      OpenTextIs(Next(r, c).value);
    } else if c == '.' {
      OnDotKeeps(r);
      OpenTextIs(Next(r, c).value);
    } else if IsHexDigit(c) {
      OnHexDigitKeeps(r, c);
      DigitText(r, c);
    } else if c == '[' {
      assert Text(START) == "" && Text(START.(bracket := true)) == "[";
    }
  }

  lemma StepSound(t: string, r: Reading, c: char)
    requires Scan(t) == Some(r) && WellFormed(r) && Text(r) == t
    ensures Scan(t + [c]) == Next(r, c)
    ensures Next(r, c).Some? ==> WellFormed(Next(r, c).value) && Text(Next(r, c).value) == t + [c]
  {
    assert (t + [c])[..|t|] == t;
    if Next(r, c).Some? {
      NextWellFormed(r, c);
      NextText(r, c);
    }
  }

  // Every reading reached is well formed and holds exactly the text read.
  lemma {:induction false} ScanSound(s: string)
    ensures Scan(s).Some? ==> WellFormed(Scan(s).value) && Text(Scan(s).value) == s
  {
    if s != "" {
      var t := s[..|s| - 1];
      ScanSound(t);
      assert s == t + [s[|s| - 1]];
      if Scan(t).Some? {
        StepSound(t, Scan(t).value, s[|s| - 1]);
      }
    }
  }

  // The reading one character earlier.
  function Back(r: Reading): Reading
    requires WellFormed(r) && r != START
  {
    if r.closed then r.(closed := false)
    else if r.tok != "" then r.(tok := r.tok[..|r.tok| - 1])
    else if r.quad != [] then r.(quad := r.quad[..|r.quad| - 1], tok := r.quad[|r.quad| - 1])
    else if r.right != [] then r.(right := r.right[..|r.right| - 1], tok := r.right[|r.right| - 1])
    else if r.gap.FullGap? then r.(gap := if r.left == [] then HalfGap else NoGap)
    else if r.gap.HalfGap? then r.(gap := NoGap)
    else if r.left != [] then r.(left := r.left[..|r.left| - 1], tok := r.left[|r.left| - 1])
    else START
  }

  function LastChar(r: Reading): char
    requires WellFormed(r) && r != START
  {
    if r.closed then ']'
    else if r.tok != "" then r.tok[|r.tok| - 1]
    else if r.quad != [] then '.'
    else if r.right != [] || !r.gap.NoGap? || r.left != [] then ':'
    else '['
  }

  // A group or octet without its last character is one, or nothing.
  lemma ShorterTok(r: Reading)
    requires WellFormed(r) && !r.closed && r.tok != ""
    ensures WellFormed(r.(tok := r.tok[..|r.tok| - 1])) && IsHexDigit(r.tok[|r.tok| - 1])
  {
    var t := r.tok[..|r.tok| - 1];
    if r.quad != [] {
      assert t == "" || IsDecOctet(t);
    } else {
      assert t == "" || IsH16(t);
    }
    hide IsH16, IsDecOctet, Complete6;
  }

  lemma TokGrowsBack(r: Reading)
    requires WellFormed(r) && !r.closed && r.tok != ""
    ensures OnHexDigit(r.(tok := r.tok[..|r.tok| - 1]), r.tok[|r.tok| - 1]) == Some(r)
  {
    assert r.tok[..|r.tok| - 1] + [r.tok[|r.tok| - 1]] == r.tok;
    hide AllH16, AllOctets, IsDecOctet, QuadFits, Complete6;
  }

  lemma BackOverTok(r: Reading)
    requires WellFormed(r) && !r.closed && r.tok != ""
    ensures WellFormed(Back(r)) && Next(Back(r), LastChar(r)) == Some(r)
  {
    ShorterTok(r);
    TokGrowsBack(r);
    hide WellFormed, OnHexDigit, OnColon, OnDot, IsDecOctet, IsH16, Complete6;
  }

  lemma BackOverQuad(r: Reading)
    requires WellFormed(r) && !r.closed && r.tok == "" && r.quad != []
    ensures WellFormed(Back(r)) && Next(Back(r), LastChar(r)) == Some(r)
  {
    var p := Back(r);
    assert p.quad + [p.tok] == r.quad;
    assert IsDecOctet(p.tok) && IsH16(p.tok);
  }

  lemma BackOverRight(r: Reading)
    requires WellFormed(r) && !r.closed && r.tok == "" && r.quad == [] && r.right != []
    ensures WellFormed(Back(r)) && Next(Back(r), LastChar(r)) == Some(r)
  {
    var p := Back(r);
    assert p.right + [p.tok] == r.right;
    assert IsH16(p.tok);
  }

  lemma BackOverLeft(r: Reading)
    requires WellFormed(r) && !r.closed && r.tok == "" && r.quad == [] && r.gap.NoGap? && r.left != []
    ensures WellFormed(Back(r)) && Next(Back(r), LastChar(r)) == Some(r)
  {
    var p := Back(r);
    assert p.left + [p.tok] == r.left;
    assert IsH16(p.tok);
  }

  lemma BackThenNext(r: Reading)
    requires WellFormed(r) && r != START
    ensures WellFormed(Back(r)) && Next(Back(r), LastChar(r)) == Some(r)
  {
    if r.closed {
    } else if r.tok != "" {
      BackOverTok(r);
    } else if r.quad != [] {
      BackOverQuad(r);
    } else if r.right != [] {
      BackOverRight(r);
    } else if r.gap.NoGap? && r.left != [] {
      BackOverLeft(r);
    }
  }

  // The reader is complete: it finds every well-formed reading from its own text.
  lemma {:induction false} ScanComplete(r: Reading)
    requires WellFormed(r)
    ensures Scan(Text(r)) == Some(r)
    decreases |Text(r)|
  {
    if r != START {
      BackThenNext(r);
      NextText(Back(r), LastChar(r));
      ScanComplete(Back(r));
      assert Text(r)[..|Text(r)| - 1] == Text(Back(r));
    }
  }

  // Hence a text splits into groups in one way only.
  lemma ReadingIsUnique(r: Reading, r': Reading)
    requires WellFormed(r) && WellFormed(r') && Text(r) == Text(r')
    ensures r == r'
  {
    ScanComplete(r);
    ScanComplete(r');
  }
}
