/**
  What the numbered states mean: `StateOf` gives the state of the generated automaton
  after each reading, and the table moves between them exactly as `Next` does.
 */
module IpAutomaton {
  import opened Wrappers
  import opened IpGrammar
  import opened IpReading
  import opened IpTable

  // How an unfinished token can still grow, as a decimal octet or as hex digits only.
  datatype Shape =
    | Empty
    | Zero        // "0"
    | One         // "1"
    | Two         // "2"
    | High        // "3" to "9"
    | OneX        // two digits, any third digit gives an octet
    | TwoFive     // "25"
    | Full2       // two digits, no third digit gives an octet
    | Full3       // an octet of three digits
    | Hex1 | Hex2 | Hex3 | Hex4

  function Len(sh: Shape): nat {
    match sh
    case Empty => 0
    case Zero | One | Two | High | Hex1 => 1
    case OneX | TwoFive | Full2 | Hex2 => 2
    case Full3 | Hex3 => 3
    case Hex4 => 4
  }

  predicate IsOctetShape(sh: Shape) {
    !sh.Empty? && !sh.Hex1? && !sh.Hex2? && !sh.Hex3? && !sh.Hex4?
  }

  function HexShape(n: nat): Shape {
    if n == 1 then Hex1 else if n == 2 then Hex2 else if n == 3 then Hex3 else Hex4
  }

  function Grow(sh: Shape, c: char): Shape {
    match sh
    case Empty =>
      if c == '0' then Zero else if c == '1' then One else if c == '2' then Two
      else if IsDigit(c) then High else Hex1
    case One => if IsDigit(c) then OneX else Hex2
    case Two =>
      if '0' <= c <= '4' then OneX else if c == '5' then TwoFive else if IsDigit(c) then Full2 else Hex2
    case High => if IsDigit(c) then Full2 else Hex2
    case OneX => if IsDigit(c) then Full3 else Hex3
    case TwoFive => if '0' <= c <= '5' then Full3 else Hex3
    case _ => HexShape(Len(sh) + 1)
  }

  function ShapeOf(tok: string): Shape {
    if tok == "" then Empty else Grow(ShapeOf(tok[..|tok| - 1]), tok[|tok| - 1])
  }

  // -------- the numbering --------

  function HeadState(bracket: bool, left: nat, sh: Shape): int {
    if left == 0 then
      if bracket then 86 + Len(sh)
      else match sh
        case Empty => 1 case Zero => 2 case One => 76 case OneX => 77 case Full3 => 78
        case Two => 79 case TwoFive => 80 case Full2 => 81 case High => 82
        case Hex1 => 85 case Hex2 => 16 case Hex3 => 17 case Hex4 => 18
    else if left <= 5 then
      (if bracket then 91 else 19) + 5 * (left - 1) + Len(sh)
    else if left == 6 then
      if bracket then
        match sh
        case Empty => 116 case Zero => 117 case One => 143 case OneX => 144 case Full3 => 145
        case Two => 146 case TwoFive => 147 case Full2 => 148 case High => 149
        case Hex1 => 151 case Hex2 => 136 case Hex3 => 137 case Hex4 => 138
      else
        match sh
        case Empty => 44 case Zero => 45 case One => 63 case OneX => 64 case Full3 => 65
        case Two => 66 case TwoFive => 67 case Full2 => 68 case High => 69
        case Hex1 => 70 case Hex2 => 59 case Hex3 => 60 case Hex4 => 61
    else
      if sh.Empty? then if bracket then 139 else 62 else LastGroupState(bracket, sh)
  }

  // The eighth group, or the last one that fits after a "::".
  function LastGroupState(bracket: bool, sh: Shape): int {
    if Len(sh) == 4 then if bracket then 123 else 237
    else (if bracket then 139 else 245) + Len(sh)
  }

  // After a "::" with `room` units left; `untouched` when no group has followed it yet.
  function TailState(bracket: bool, room: nat, untouched: bool, sh: Shape): int {
    if room == 0 then
      if bracket then 123 else 237
    else if room == 1 then
      if !sh.Empty? then LastGroupState(bracket, sh)
      else if untouched then if bracket then 150 else 249
      else if bracket then 157 else 71
    else if sh.Empty? && !untouched then
      if bracket then (if room == 6 then 228 else 143 + 14 * room) else (if room == 6 then 84 else 70 + room)
    else if bracket then
      (if room == 7 then 223 else 124 + 14 * room) + BracketedBlockOffset(sh)
    else
      224 + 13 * room + BlockOffset(sh)
  }

  function BlockOffset(sh: Shape): int {
    match sh
    case Empty => 0 case Zero => 1 case Hex2 => 2 case Hex3 => 3 case Hex4 => 4
    case One => 5 case OneX => 6 case Full3 => 7 case Two => 8 case TwoFive => 9
    case Full2 => 10 case High => 11 case Hex1 => 12
  }

  function BracketedBlockOffset(sh: Shape): int {
    match sh
    case Empty => 0 case Zero => 1 case Hex2 => 2 case Hex3 => 3 case Hex4 => 4
    case One => 6 case OneX => 7 case Full3 => 8 case Two => 9 case TwoFive => 10
    case Full2 => 11 case High => 12 case Hex1 => 13
  }

  datatype QuadKind = Alone | InIPv6 | InReference

  // After `dots` dots of an IPv4 address.
  function QuadState(kind: QuadKind, dots: nat, sh: Shape): int {
    var k := if sh.Empty? then 0 else if sh.Zero? || sh.Full2? || sh.Full3? then 1
             else if sh.One? then 2 else if sh.Two? then 3 else if sh.TwoFive? then 4 else 5;
    match kind
    case Alone =>
      if dots == 1 then [3, 4, 12, 14, 15, 13][k]
      else if dots == 2 then [5, 6, 8, 10, 11, 9][k] else [7, 237, 238, 240, 241, 239][k]
    case InIPv6 =>
      if dots == 1 then [46, 47, 55, 57, 58, 56][k]
      else if dots == 2 then [48, 49, 51, 53, 54, 52][k] else [50, 237, 242, 244, 245, 243][k]
    case InReference =>
      if dots == 1 then [118, 119, 132, 134, 135, 133][k]
      else if dots == 2 then [120, 121, 128, 130, 131, 129][k] else [122, 123, 124, 126, 127, 125][k]
  }

  function KindOfQuad(r: Reading): QuadKind {
    if r.bracket then InReference else if PureQuad(r) then Alone else InIPv6
  }

  function StateOf(r: Reading): int
    requires WellFormed(r)
  {
    if r.closed then 237
    else if r.gap.HalfGap? then if r.bracket then 222 else 83
    else if r.quad != [] then QuadState(KindOfQuad(r), |r.quad|, ShapeOf(r.tok))
    else if r.gap.NoGap? then HeadState(r.bracket, |r.left|, ShapeOf(r.tok))
    else TailState(r.bracket, Room(r), r.right == [], ShapeOf(r.tok))
  }

  // The class a reading completes, if any: what the actions of the grammar assign.
  function KindOf(r: Reading): IpType {
    if r.closed then Ipv6Reference
    else if Complete4(r) then Ipv4
    else if Complete6(r) && !r.bracket then Ipv6
    else NoIp
  }

  function Land(cs: int, ipType: IpType): Move {
    if ipType.NoIp? then To(cs) else Set(cs, ipType)
  }

  // The move that corresponds to a step of the reader.
  function MoveFor(r: Option<Reading>): Move
    requires r.Some? ==> WellFormed(r.value)
  {
    match r
    case None => Err
    case Some(r') => Land(StateOf(r'), KindOf(r'))
  }

  // -------- shapes of tokens --------

  lemma {:induction false} ShapeOfToken(tok: string)
    requires |tok| <= 4 && forall i | 0 <= i < |tok| :: IsHexDigit(tok[i])
    ensures Len(ShapeOf(tok)) == |tok|
    ensures IsDecOctet(tok) <==> IsOctetShape(ShapeOf(tok))
    decreases |tok|
  {
    if |tok| > 0 {
      var t := tok[..|tok| - 1];
      ShapeOfToken(t);
      if |tok| > 1 {
        var u := t[..|t| - 1];
        assert ShapeOf(t) == Grow(ShapeOf(u), t[|t| - 1]);
        if |tok| > 2 {
          assert ShapeOf(u) == Grow(ShapeOf(u[..|u| - 1]), u[|u| - 1]);
        }
      }
    }
  }

  lemma ShapeOfSnoc(tok: string, c: char)
    ensures ShapeOf(tok + [c]) == Grow(ShapeOf(tok), c)
  {
    assert (tok + [c])[..|tok|] == tok;
  }

  // -------- the table against the reader --------

  // -------- an IPv4 address, alone or at the end of an IPv6 one --------

  function QuadIp(kind: QuadKind, dots: nat, sh: Shape): IpType {
    if dots < 3 || sh.Empty? then NoIp
    else match kind case Alone => Ipv4 case InIPv6 => Ipv6 case InReference => NoIp
  }

  function QuadStep(kind: QuadKind, dots: nat, sh: Shape, c: char): Move {
    if IsHexDigit(c) then
      if IsOctetShape(Grow(sh, c)) then Land(QuadState(kind, dots, Grow(sh, c)), QuadIp(kind, dots, Grow(sh, c)))
      else Err
    else if c == '.' then
      if dots < 3 && !sh.Empty? then To(QuadState(kind, dots + 1, Empty)) else Err
    else if c == ']' && kind.InReference? && dots == 3 && !sh.Empty? then Set(237, Ipv6Reference)
    else Err
  }

  lemma AloneMovesOnDigit(dots: nat, sh: Shape, c: char)
    requires 1 <= dots <= 3 && (sh.Empty? || IsOctetShape(sh))
    requires IsHexDigit(c)
    ensures var cs := QuadState(Alone, dots, sh);
            (if cs <= 18 then Moves1To18(cs, c) else Moves237To241(cs, c)) == QuadStep(Alone, dots, sh, c)
  {
  }

  lemma AloneMovesOnMark(dots: nat, sh: Shape, c: char)
    requires 1 <= dots <= 3 && (sh.Empty? || IsOctetShape(sh))
    requires !IsHexDigit(c)
    ensures var cs := QuadState(Alone, dots, sh);
            (if cs <= 18 then Moves1To18(cs, c) else Moves237To241(cs, c)) == QuadStep(Alone, dots, sh, c)
  {
    hide Grow, IsOctetShape;
  }

  lemma AloneMoves(dots: nat, sh: Shape, c: char)
    requires 1 <= dots <= 3 && (sh.Empty? || IsOctetShape(sh))
    ensures var cs := QuadState(Alone, dots, sh);
            (if cs <= 18 then Moves1To18(cs, c) else Moves237To241(cs, c)) == QuadStep(Alone, dots, sh, c)
  {
    hide Moves1To18, Moves237To241, QuadState, QuadStep;
    if IsHexDigit(c) {
      AloneMovesOnDigit(dots, sh, c);
    } else {
      AloneMovesOnMark(dots, sh, c);
    }
  }

  lemma InIPv6MovesOnDigit(dots: nat, sh: Shape, c: char)
    requires 1 <= dots <= 3 && (sh.Empty? || IsOctetShape(sh))
    requires IsHexDigit(c)
    ensures var cs := QuadState(InIPv6, dots, sh);
            (if cs <= 62 then Moves44To62(cs, c) else if cs == 237 then Err else Moves242To245(cs, c))
            == QuadStep(InIPv6, dots, sh, c)
  {
  }

  lemma InIPv6MovesOnMark(dots: nat, sh: Shape, c: char)
    requires 1 <= dots <= 3 && (sh.Empty? || IsOctetShape(sh))
    requires !IsHexDigit(c)
    ensures var cs := QuadState(InIPv6, dots, sh);
            (if cs <= 62 then Moves44To62(cs, c) else if cs == 237 then Err else Moves242To245(cs, c))
            == QuadStep(InIPv6, dots, sh, c)
  {
    hide Grow, IsOctetShape;
  }

  lemma InIPv6Moves(dots: nat, sh: Shape, c: char)
    requires 1 <= dots <= 3 && (sh.Empty? || IsOctetShape(sh))
    ensures var cs := QuadState(InIPv6, dots, sh);
            (if cs <= 62 then Moves44To62(cs, c) else if cs == 237 then Err else Moves242To245(cs, c))
            == QuadStep(InIPv6, dots, sh, c)
  {
    hide Moves242To245, Moves44To62, QuadState, QuadStep;
    if IsHexDigit(c) {
      InIPv6MovesOnDigit(dots, sh, c);
    } else {
      InIPv6MovesOnMark(dots, sh, c);
    }
  }

  lemma InReferenceMovesOnDigit(dots: nat, sh: Shape, c: char)
    requires 1 <= dots <= 3 && (sh.Empty? || IsOctetShape(sh))
    requires IsHexDigit(c)
    ensures Moves116To138(QuadState(InReference, dots, sh), c) == QuadStep(InReference, dots, sh, c)
  {
  }

  lemma InReferenceMovesOnMark(dots: nat, sh: Shape, c: char)
    requires 1 <= dots <= 3 && (sh.Empty? || IsOctetShape(sh))
    requires !IsHexDigit(c)
    ensures Moves116To138(QuadState(InReference, dots, sh), c) == QuadStep(InReference, dots, sh, c)
  {
    hide Grow, IsOctetShape;
  }

  lemma InReferenceMoves(dots: nat, sh: Shape, c: char)
    requires 1 <= dots <= 3 && (sh.Empty? || IsOctetShape(sh))
    ensures Moves116To138(QuadState(InReference, dots, sh), c) == QuadStep(InReference, dots, sh, c)
  {
    hide Moves116To138, QuadState, QuadStep;
    if IsHexDigit(c) {
      InReferenceMovesOnDigit(dots, sh, c);
    } else {
      InReferenceMovesOnMark(dots, sh, c);
    }
  }

  lemma QuadMoves(kind: QuadKind, dots: nat, sh: Shape, c: char)
    requires 1 <= dots <= 3 && (sh.Empty? || IsOctetShape(sh))
    ensures MoveOn(QuadState(kind, dots, sh), c) == QuadStep(kind, dots, sh, c)
  {
    hide QuadStep, Moves1To18, Moves44To62, Moves116To138, Moves242To245;
    match kind {
      case Alone => AloneMoves(dots, sh, c);
      case InIPv6 => InIPv6Moves(dots, sh, c);
      case InReference => InReferenceMoves(dots, sh, c);
    }
  }

  // -------- before any "::" --------

  function HeadIp(bracket: bool, left: nat, sh: Shape): IpType {
    if left == 7 && !sh.Empty? && !bracket then Ipv6 else NoIp
  }

  function HeadColon(bracket: bool, left: nat, sh: Shape): Move {
    if sh.Empty? then
      if left == 0 then To(if bracket then 222 else 83)
      else Land(TailState(bracket, if left <= 7 then 7 - left else 0, true, Empty), if bracket then NoIp else Ipv6)
    else
      if left < 7 then To(HeadState(bracket, left + 1, Empty)) else Err
  }

  function HeadDot(bracket: bool, left: nat, sh: Shape): Move {
    if !IsOctetShape(sh) then Err
    else if left == 6 then To(QuadState(if bracket then InReference else InIPv6, 1, Empty))
    else if left == 0 && !bracket then To(QuadState(Alone, 1, Empty))
    else Err
  }

  function HeadStep(bracket: bool, left: nat, sh: Shape, c: char): Move {
    if IsHexDigit(c) then
      if Len(sh) < 4 then Land(HeadState(bracket, left, Grow(sh, c)), HeadIp(bracket, left, Grow(sh, c)))
      else Err
    else if c == ':' then HeadColon(bracket, left, sh)
    else if c == '.' then HeadDot(bracket, left, sh)
    else if c == '[' then if !bracket && left == 0 && sh.Empty? then To(86) else Err
    else if c == ']' && bracket && left == 7 && !sh.Empty? then Set(237, Ipv6Reference)
    else Err
  }

  lemma BareFirstGroupMovesOnDigit(sh: Shape, c: char)
    requires IsHexDigit(c)
    ensures var cs := HeadState(false, 0, sh);
            (if cs <= 18 then Moves1To18(cs, c) else Moves76To85(cs, c)) == HeadStep(false, 0, sh, c)
  {
    hide QuadState, IsOctetShape;
  }

  lemma BareFirstGroupMovesOnMark(sh: Shape, c: char)
    requires !IsHexDigit(c)
    ensures var cs := HeadState(false, 0, sh);
            (if cs <= 18 then Moves1To18(cs, c) else Moves76To85(cs, c)) == HeadStep(false, 0, sh, c)
  {
    hide Grow;
  }

  lemma BareFirstGroupMoves(sh: Shape, c: char)
    ensures var cs := HeadState(false, 0, sh);
            (if cs <= 18 then Moves1To18(cs, c) else Moves76To85(cs, c)) == HeadStep(false, 0, sh, c)
  {
    hide HeadState, HeadStep, Moves1To18, Moves76To85;
    if IsHexDigit(c) {
      BareFirstGroupMovesOnDigit(sh, c);
    } else {
      BareFirstGroupMovesOnMark(sh, c);
    }
  }

  function BareMiddle(left: nat, n: nat, c: char): Move {
    if IsHexDigit(c) then if n < 4 then To(14 + 5 * left + n + 1) else Err
    else if c == ':' then if n > 0 then To(19 + 5 * left) else Set(315 - 13 * left, Ipv6)
    else Err
  }

  lemma BareMiddleStates(left: nat, n: nat, c: char)
    requires 1 <= left <= 5 && n <= 4
    ensures Moves19To43(14 + 5 * left + n, c) == BareMiddle(left, n, c)
  {
  }

  lemma BareMiddleSteps(left: nat, sh: Shape, c: char)
    requires 1 <= left <= 5
    ensures HeadStep(false, left, sh, c) == BareMiddle(left, Len(sh), c)
  {
  }

  lemma BareMiddleGroupMoves(left: nat, sh: Shape, c: char)
    requires 1 <= left <= 5
    ensures Moves19To43(HeadState(false, left, sh), c) == HeadStep(false, left, sh, c)
  {
    BareMiddleStates(left, Len(sh), c);
    BareMiddleSteps(left, sh, c);
    assert HeadState(false, left, sh) == 14 + 5 * left + Len(sh);
  }

  lemma BareSeventhGroupMovesOnDigit(sh: Shape, c: char)
    requires IsHexDigit(c)
    ensures var cs := HeadState(false, 6, sh);
            (if cs <= 62 then Moves44To62(cs, c) else Moves63To70(cs, c)) == HeadStep(false, 6, sh, c)
  {
    hide QuadState, IsOctetShape;
  }

  lemma BareSeventhGroupMovesOnMark(sh: Shape, c: char)
    requires !IsHexDigit(c)
    ensures var cs := HeadState(false, 6, sh);
            (if cs <= 62 then Moves44To62(cs, c) else Moves63To70(cs, c)) == HeadStep(false, 6, sh, c)
  {
    hide Grow;
  }

  lemma BareSeventhGroupMoves(sh: Shape, c: char)
    ensures var cs := HeadState(false, 6, sh);
            (if cs <= 62 then Moves44To62(cs, c) else Moves63To70(cs, c)) == HeadStep(false, 6, sh, c)
  {
    hide HeadState, HeadStep, Moves44To62, Moves63To70;
    if IsHexDigit(c) {
      BareSeventhGroupMovesOnDigit(sh, c);
    } else {
      BareSeventhGroupMovesOnMark(sh, c);
    }
  }

  lemma BareEighthGroupMovesOnDigit(sh: Shape, c: char)
    requires IsHexDigit(c)
    ensures var cs := HeadState(false, 7, sh);
            (if cs == 62 then Moves44To62(cs, c) else if cs == 237 then Err else Moves246To249(cs, c))
            == HeadStep(false, 7, sh, c)
  {
    hide QuadState, IsOctetShape;
  }

  lemma BareEighthGroupMovesOnMark(sh: Shape, c: char)
    requires !IsHexDigit(c)
    ensures var cs := HeadState(false, 7, sh);
            (if cs == 62 then Moves44To62(cs, c) else if cs == 237 then Err else Moves246To249(cs, c))
            == HeadStep(false, 7, sh, c)
  {
    hide Grow;
  }

  lemma BareEighthGroupMoves(sh: Shape, c: char)
    ensures var cs := HeadState(false, 7, sh);
            (if cs == 62 then Moves44To62(cs, c) else if cs == 237 then Err else Moves246To249(cs, c))
            == HeadStep(false, 7, sh, c)
  {
    hide HeadState, HeadStep, Moves246To249, Moves44To62;
    if IsHexDigit(c) {
      BareEighthGroupMovesOnDigit(sh, c);
    } else {
      BareEighthGroupMovesOnMark(sh, c);
    }
  }

  function BracketedMiddle(left: nat, n: nat, c: char): Move {
    if IsHexDigit(c) then if n < 4 then To(86 + 5 * left + n + 1) else Err
    else if c == ':' then if n > 0 then To(91 + 5 * left) else To(222 - 14 * left)
    else Err
  }

  lemma BracketedMiddleStates(left: nat, n: nat, c: char)
    requires left <= 5 && n <= 4
    ensures Moves86To115(86 + 5 * left + n, c) == BracketedMiddle(left, n, c)
  {
  }

  lemma BracketedMiddleSteps(left: nat, sh: Shape, c: char)
    requires left <= 5
    ensures HeadStep(true, left, sh, c) == BracketedMiddle(left, Len(sh), c)
  {
  }

  lemma BracketedMiddleGroupMoves(left: nat, sh: Shape, c: char)
    requires left <= 5
    ensures Moves86To115(HeadState(true, left, sh), c) == HeadStep(true, left, sh, c)
  {
    BracketedMiddleStates(left, Len(sh), c);
    BracketedMiddleSteps(left, sh, c);
    assert HeadState(true, left, sh) == 86 + 5 * left + Len(sh);
  }

  lemma BracketedSeventhGroupMovesOnDigit(sh: Shape, c: char)
    requires IsHexDigit(c)
    ensures var cs := HeadState(true, 6, sh);
            (if cs <= 138 then Moves116To138(cs, c) else Moves139To151(cs, c)) == HeadStep(true, 6, sh, c)
  {
    hide QuadState, IsOctetShape;
  }

  lemma BracketedSeventhGroupMovesOnMark(sh: Shape, c: char)
    requires !IsHexDigit(c)
    ensures var cs := HeadState(true, 6, sh);
            (if cs <= 138 then Moves116To138(cs, c) else Moves139To151(cs, c)) == HeadStep(true, 6, sh, c)
  {
    hide Grow;
  }

  lemma BracketedSeventhGroupMoves(sh: Shape, c: char)
    ensures var cs := HeadState(true, 6, sh);
            (if cs <= 138 then Moves116To138(cs, c) else Moves139To151(cs, c)) == HeadStep(true, 6, sh, c)
  {
    hide HeadState, HeadStep, Moves116To138, Moves139To151;
    if IsHexDigit(c) {
      BracketedSeventhGroupMovesOnDigit(sh, c);
    } else {
      BracketedSeventhGroupMovesOnMark(sh, c);
    }
  }

  lemma BracketedEighthGroupMovesOnDigit(sh: Shape, c: char)
    requires IsHexDigit(c)
    ensures var cs := HeadState(true, 7, sh);
            (if cs == 123 then Moves116To138(cs, c) else Moves139To151(cs, c)) == HeadStep(true, 7, sh, c)
  {
    hide QuadState, IsOctetShape;
  }

  lemma BracketedEighthGroupMovesOnMark(sh: Shape, c: char)
    requires !IsHexDigit(c)
    ensures var cs := HeadState(true, 7, sh);
            (if cs == 123 then Moves116To138(cs, c) else Moves139To151(cs, c)) == HeadStep(true, 7, sh, c)
  {
    hide Grow;
  }

  lemma BracketedEighthGroupMoves(sh: Shape, c: char)
    ensures var cs := HeadState(true, 7, sh);
            (if cs == 123 then Moves116To138(cs, c) else Moves139To151(cs, c)) == HeadStep(true, 7, sh, c)
  {
    hide HeadState, HeadStep, Moves116To138, Moves139To151;
    if IsHexDigit(c) {
      BracketedEighthGroupMovesOnDigit(sh, c);
    } else {
      BracketedEighthGroupMovesOnMark(sh, c);
    }
  }

  lemma BareHeadMoves(left: nat, sh: Shape, c: char)
    requires left <= 7
    ensures MoveOn(HeadState(false, left, sh), c) == HeadStep(false, left, sh, c)
  {
    hide HeadStep;
    hide Moves1To18, Moves19To43, Moves44To62, Moves63To70, Moves71To75, Moves76To85, Moves86To115, Moves116To138;
    hide Moves139To151, Moves242To245, Moves246To249;
    if left == 0 {
      BareFirstGroupMoves(sh, c);
    } else if left <= 5 {
      BareMiddleGroupMoves(left, sh, c);
    } else if left == 6 {
      BareSeventhGroupMoves(sh, c);
    } else {
      BareEighthGroupMoves(sh, c);
    }
  }

  lemma BracketedHeadMoves(left: nat, sh: Shape, c: char)
    requires left <= 7
    ensures MoveOn(HeadState(true, left, sh), c) == HeadStep(true, left, sh, c)
  {
    hide HeadStep;
    hide Moves1To18, Moves19To43, Moves44To62, Moves63To70, Moves71To75, Moves76To85, Moves86To115, Moves116To138;
    hide Moves139To151, Moves237To241, Moves242To245, Moves246To249;
    if left <= 5 {
      BracketedMiddleGroupMoves(left, sh, c);
    } else if left == 6 {
      BracketedSeventhGroupMoves(sh, c);
    } else {
      BracketedEighthGroupMoves(sh, c);
    }
  }

  // -------- after a "::" --------

  function TailIp(bracket: bool, untouched: bool, sh: Shape): IpType {
    if !bracket && (untouched || !sh.Empty?) then Ipv6 else NoIp
  }

  function TailStep(bracket: bool, room: nat, untouched: bool, sh: Shape, c: char): Move {
    if IsHexDigit(c) then
      if Len(sh) < 4 && room >= 1 then
        Land(TailState(bracket, room, untouched, Grow(sh, c)), TailIp(bracket, untouched, Grow(sh, c)))
      else Err
    else if c == ':' then
      if !sh.Empty? && room >= 2 then To(TailState(bracket, room - 1, false, Empty)) else Err
    else if c == '.' then
      if IsOctetShape(sh) && room >= 2 then To(QuadState(if bracket then InReference else InIPv6, 1, Empty)) else Err
    else if c == ']' && bracket && (untouched || !sh.Empty?) then Set(237, Ipv6Reference)
    else Err
  }

  lemma BareNarrowStepsOnDigit(room: nat, untouched: bool, sh: Shape, c: char)
    requires room <= 1 && (room == 0 ==> untouched && sh.Empty?)
    requires IsHexDigit(c)
    ensures var cs := TailState(false, room, untouched, sh);
            (if cs == 71 then Moves71To75(cs, c) else if cs <= 241 then Moves237To241(cs, c) else Moves246To249(cs, c))
            == TailStep(false, room, untouched, sh, c)
  {
    hide QuadState, IsOctetShape;
  }

  lemma BareNarrowStepsOnMark(room: nat, untouched: bool, sh: Shape, c: char)
    requires room <= 1 && (room == 0 ==> untouched && sh.Empty?)
    requires !IsHexDigit(c)
    ensures var cs := TailState(false, room, untouched, sh);
            (if cs == 71 then Moves71To75(cs, c) else if cs <= 241 then Moves237To241(cs, c) else Moves246To249(cs, c))
            == TailStep(false, room, untouched, sh, c)
  {
    hide Grow;
  }

  lemma BareNarrowSteps(room: nat, untouched: bool, sh: Shape, c: char)
    requires room <= 1 && (room == 0 ==> untouched && sh.Empty?)
    ensures var cs := TailState(false, room, untouched, sh);
            (if cs == 71 then Moves71To75(cs, c) else if cs <= 241 then Moves237To241(cs, c) else Moves246To249(cs, c))
            == TailStep(false, room, untouched, sh, c)
  {
    hide Moves237To241, Moves246To249, Moves71To75, TailState, TailStep;
    if IsHexDigit(c) {
      BareNarrowStepsOnDigit(room, untouched, sh, c);
    } else {
      BareNarrowStepsOnMark(room, untouched, sh, c);
    }
  }

  lemma BareNarrowMoves(room: nat, untouched: bool, sh: Shape, c: char)
    requires room <= 1 && (room == 0 ==> untouched && sh.Empty?)
    ensures MoveOn(TailState(false, room, untouched, sh), c) == TailStep(false, room, untouched, sh, c)
  {
    BareNarrowSteps(room, untouched, sh, c);
    var cs := TailState(false, room, untouched, sh);
    assert cs == 71 || cs == 237 || 246 <= cs <= 249;
    hide TailState, TailStep, Moves71To75, Moves237To241, Moves246To249;
  }

  lemma BracketedNarrowStepsOnDigit(room: nat, untouched: bool, sh: Shape, c: char)
    requires room <= 1 && (room == 0 ==> untouched && sh.Empty?)
    requires IsHexDigit(c)
    ensures var cs := TailState(true, room, untouched, sh);
            (if cs <= 138 then Moves116To138(cs, c)
             else if cs <= 151 then Moves139To151(cs, c)
             else Moves152To165(cs, c))
            == TailStep(true, room, untouched, sh, c)
  {
    hide QuadState, IsOctetShape;
  }

  lemma BracketedNarrowStepsOnMark(room: nat, untouched: bool, sh: Shape, c: char)
    requires room <= 1 && (room == 0 ==> untouched && sh.Empty?)
    requires !IsHexDigit(c)
    ensures var cs := TailState(true, room, untouched, sh);
            (if cs <= 138 then Moves116To138(cs, c)
             else if cs <= 151 then Moves139To151(cs, c)
             else Moves152To165(cs, c))
            == TailStep(true, room, untouched, sh, c)
  {
    hide Grow;
  }

  lemma BracketedNarrowSteps(room: nat, untouched: bool, sh: Shape, c: char)
    requires room <= 1 && (room == 0 ==> untouched && sh.Empty?)
    ensures var cs := TailState(true, room, untouched, sh);
            (if cs <= 138 then Moves116To138(cs, c)
             else if cs <= 151 then Moves139To151(cs, c)
             else Moves152To165(cs, c))
            == TailStep(true, room, untouched, sh, c)
  {
    hide Moves116To138, Moves139To151, Moves152To165, TailState, TailStep;
    if IsHexDigit(c) {
      BracketedNarrowStepsOnDigit(room, untouched, sh, c);
    } else {
      BracketedNarrowStepsOnMark(room, untouched, sh, c);
    }
  }

  lemma BracketedNarrowMoves(room: nat, untouched: bool, sh: Shape, c: char)
    requires room <= 1 && (room == 0 ==> untouched && sh.Empty?)
    ensures MoveOn(TailState(true, room, untouched, sh), c) == TailStep(true, room, untouched, sh, c)
  {
    BracketedNarrowSteps(room, untouched, sh, c);
    assert 123 <= TailState(true, room, untouched, sh) <= 165;
    hide TailState, TailStep, Moves116To138, Moves139To151, Moves152To165;
  }

  lemma BareSeparatorMovesOnDigit(room: nat, c: char)
    requires 2 <= room <= 6
    requires IsHexDigit(c)
    ensures MoveOn(TailState(false, room, false, Empty), c) == TailStep(false, room, false, Empty, c)
  {
    hide QuadState, IsOctetShape;
  }

  lemma BareSeparatorMovesOnMark(room: nat, c: char)
    requires 2 <= room <= 6
    requires !IsHexDigit(c)
    ensures MoveOn(TailState(false, room, false, Empty), c) == TailStep(false, room, false, Empty, c)
  {
    hide Grow;
  }

  lemma BareSeparatorMoves(room: nat, c: char)
    requires 2 <= room <= 6
    ensures MoveOn(TailState(false, room, false, Empty), c) == TailStep(false, room, false, Empty, c)
  {
    hide TailState, TailStep;
    if IsHexDigit(c) {
      BareSeparatorMovesOnDigit(room, c);
    } else {
      BareSeparatorMovesOnMark(room, c);
    }
  }

  // The move of one of these states, by the part of the table it is in.
  function SeparatorMove(room: nat, c: char): Move {
    match room
    case 2 => Moves166To179(171, c)
    case 3 => Moves180To193(185, c)
    case 4 => Moves194To207(199, c)
    case 5 => Moves208To221(213, c)
    case _ => Moves222To236(228, c)
  }

  lemma SeparatorMoveIs(room: nat, c: char)
    requires 2 <= room <= 6
    ensures MoveOn(TailState(true, room, false, Empty), c) == SeparatorMove(room, c)
  {
    hide Moves166To179, Moves180To193, Moves194To207, Moves208To221, Moves222To236;
  }

  lemma BracketedSeparatorMovesOnDigit(room: nat, c: char)
    requires 2 <= room <= 6
    requires IsHexDigit(c)
    ensures SeparatorMove(room, c) == TailStep(true, room, false, Empty, c)
  {
    hide QuadState, IsOctetShape;
  }

  lemma BracketedSeparatorMovesOnMark(room: nat, c: char)
    requires 2 <= room <= 6
    requires !IsHexDigit(c)
    ensures SeparatorMove(room, c) == TailStep(true, room, false, Empty, c)
  {
    hide Grow, TailState;
  }

  lemma BracketedSeparatorMoves(room: nat, c: char)
    requires 2 <= room <= 6
    ensures MoveOn(TailState(true, room, false, Empty), c) == TailStep(true, room, false, Empty, c)
  {
    SeparatorMoveIs(room, c);
    hide MoveOn, SeparatorMove, TailState, TailStep;
    if IsHexDigit(c) {
      BracketedSeparatorMovesOnDigit(room, c);
    } else {
      BracketedSeparatorMovesOnMark(room, c);
    }
  }

  // The copies of the block of thirteen states.

  lemma BareBlockState(room: nat, sh: Shape)
    requires 2 <= room <= 7
    ensures TailState(false, room, true, sh) == 224 + 13 * room + BlockOffset(sh)
  {
    hide BlockOffset;
  }

  lemma BracketedBlockState(room: nat, sh: Shape)
    requires 2 <= room <= 7
    ensures TailState(true, room, true, sh) == (if room == 7 then 223 else 124 + 14 * room) + BracketedBlockOffset(sh)
  {
    hide BracketedBlockOffset;
  }

  lemma BareBlockOfTwoOnDigit(sh: Shape, c: char)
    requires IsHexDigit(c)
    ensures Moves250To262(TailState(false, 2, true, sh), c) == TailStep(false, 2, true, sh, c)
  {
    BareBlockState(2, sh);
    BareBlockState(2, Grow(sh, c));
    hide TailState, QuadState, IsOctetShape;
  }

  lemma BareBlockOfTwoOnMark(sh: Shape, c: char)
    requires !IsHexDigit(c)
    ensures Moves250To262(TailState(false, 2, true, sh), c) == TailStep(false, 2, true, sh, c)
  {
    hide Grow;
  }

  lemma BareBlockOfThreeOnDigit(sh: Shape, c: char)
    requires IsHexDigit(c)
    ensures Moves263To275(TailState(false, 3, true, sh), c) == TailStep(false, 3, true, sh, c)
  {
    BareBlockState(3, sh);
    BareBlockState(3, Grow(sh, c));
    hide TailState, QuadState, IsOctetShape;
  }

  lemma BareBlockOfThreeOnMark(sh: Shape, c: char)
    requires !IsHexDigit(c)
    ensures Moves263To275(TailState(false, 3, true, sh), c) == TailStep(false, 3, true, sh, c)
  {
    hide Grow;
  }

  lemma BareBlockOfFourOnDigit(sh: Shape, c: char)
    requires IsHexDigit(c)
    ensures Moves276To288(TailState(false, 4, true, sh), c) == TailStep(false, 4, true, sh, c)
  {
    BareBlockState(4, sh);
    BareBlockState(4, Grow(sh, c));
    hide TailState, QuadState, IsOctetShape;
  }

  lemma BareBlockOfFourOnMark(sh: Shape, c: char)
    requires !IsHexDigit(c)
    ensures Moves276To288(TailState(false, 4, true, sh), c) == TailStep(false, 4, true, sh, c)
  {
    hide Grow;
  }

  lemma BareBlockOfFiveOnDigit(sh: Shape, c: char)
    requires IsHexDigit(c)
    ensures Moves289To301(TailState(false, 5, true, sh), c) == TailStep(false, 5, true, sh, c)
  {
    BareBlockState(5, sh);
    BareBlockState(5, Grow(sh, c));
    hide TailState, QuadState, IsOctetShape;
  }

  lemma BareBlockOfFiveOnMark(sh: Shape, c: char)
    requires !IsHexDigit(c)
    ensures Moves289To301(TailState(false, 5, true, sh), c) == TailStep(false, 5, true, sh, c)
  {
    hide Grow;
  }

  lemma BareBlockOfSixOnDigit(sh: Shape, c: char)
    requires IsHexDigit(c)
    ensures Moves302To314(TailState(false, 6, true, sh), c) == TailStep(false, 6, true, sh, c)
  {
    BareBlockState(6, sh);
    BareBlockState(6, Grow(sh, c));
    hide TailState, QuadState, IsOctetShape;
  }

  lemma BareBlockOfSixOnMark(sh: Shape, c: char)
    requires !IsHexDigit(c)
    ensures Moves302To314(TailState(false, 6, true, sh), c) == TailStep(false, 6, true, sh, c)
  {
    hide Grow;
  }

  lemma BareBlockOfSevenOnDigit(sh: Shape, c: char)
    requires IsHexDigit(c)
    ensures Moves315To327(TailState(false, 7, true, sh), c) == TailStep(false, 7, true, sh, c)
  {
    BareBlockState(7, sh);
    BareBlockState(7, Grow(sh, c));
    hide TailState, QuadState, IsOctetShape;
  }

  lemma BareBlockOfSevenOnMark(sh: Shape, c: char)
    requires !IsHexDigit(c)
    ensures Moves315To327(TailState(false, 7, true, sh), c) == TailStep(false, 7, true, sh, c)
  {
    hide Grow;
  }

  lemma BracketedBlockOfTwoOnDigit(sh: Shape, c: char)
    requires IsHexDigit(c)
    ensures Moves152To165(TailState(true, 2, true, sh), c) == TailStep(true, 2, true, sh, c)
  {
    BracketedBlockState(2, sh);
    BracketedBlockState(2, Grow(sh, c));
    hide TailState, QuadState, IsOctetShape;
  }

  lemma BracketedBlockOfTwoOnMark(sh: Shape, c: char)
    requires !IsHexDigit(c)
    ensures Moves152To165(TailState(true, 2, true, sh), c) == TailStep(true, 2, true, sh, c)
  {
    hide Grow;
  }

  lemma BracketedBlockOfThreeOnDigit(sh: Shape, c: char)
    requires IsHexDigit(c)
    ensures Moves166To179(TailState(true, 3, true, sh), c) == TailStep(true, 3, true, sh, c)
  {
    BracketedBlockState(3, sh);
    BracketedBlockState(3, Grow(sh, c));
    hide TailState, QuadState, IsOctetShape;
  }

  lemma BracketedBlockOfThreeOnMark(sh: Shape, c: char)
    requires !IsHexDigit(c)
    ensures Moves166To179(TailState(true, 3, true, sh), c) == TailStep(true, 3, true, sh, c)
  {
    hide Grow;
  }

  lemma BracketedBlockOfFourOnDigit(sh: Shape, c: char)
    requires IsHexDigit(c)
    ensures Moves180To193(TailState(true, 4, true, sh), c) == TailStep(true, 4, true, sh, c)
  {
    BracketedBlockState(4, sh);
    BracketedBlockState(4, Grow(sh, c));
    hide TailState, QuadState, IsOctetShape;
  }

  lemma BracketedBlockOfFourOnMark(sh: Shape, c: char)
    requires !IsHexDigit(c)
    ensures Moves180To193(TailState(true, 4, true, sh), c) == TailStep(true, 4, true, sh, c)
  {
    hide Grow;
  }

  lemma BracketedBlockOfFiveOnDigit(sh: Shape, c: char)
    requires IsHexDigit(c)
    ensures Moves194To207(TailState(true, 5, true, sh), c) == TailStep(true, 5, true, sh, c)
  {
    BracketedBlockState(5, sh);
    BracketedBlockState(5, Grow(sh, c));
    hide TailState, QuadState, IsOctetShape;
  }

  lemma BracketedBlockOfFiveOnMark(sh: Shape, c: char)
    requires !IsHexDigit(c)
    ensures Moves194To207(TailState(true, 5, true, sh), c) == TailStep(true, 5, true, sh, c)
  {
    hide Grow;
  }

  lemma BracketedBlockOfSixOnDigit(sh: Shape, c: char)
    requires IsHexDigit(c)
    ensures Moves208To221(TailState(true, 6, true, sh), c) == TailStep(true, 6, true, sh, c)
  {
    BracketedBlockState(6, sh);
    BracketedBlockState(6, Grow(sh, c));
    hide TailState, QuadState, IsOctetShape;
  }

  lemma BracketedBlockOfSixOnMark(sh: Shape, c: char)
    requires !IsHexDigit(c)
    ensures Moves208To221(TailState(true, 6, true, sh), c) == TailStep(true, 6, true, sh, c)
  {
    hide Grow;
  }

  lemma BracketedBlockOfSevenOnDigit(sh: Shape, c: char)
    requires IsHexDigit(c)
    ensures Moves222To236(TailState(true, 7, true, sh), c) == TailStep(true, 7, true, sh, c)
  {
    BracketedBlockState(7, sh);
    BracketedBlockState(7, Grow(sh, c));
    hide TailState, QuadState, IsOctetShape;
  }

  lemma BracketedBlockOfSevenOnMark(sh: Shape, c: char)
    requires !IsHexDigit(c)
    ensures Moves222To236(TailState(true, 7, true, sh), c) == TailStep(true, 7, true, sh, c)
  {
    hide Grow;
  }

  lemma BareBlockPlace(room: nat, sh: Shape)
    requires 2 <= room <= 7
    ensures 224 + 13 * room <= TailState(false, room, true, sh) <= 236 + 13 * room
  {
  }

  lemma BracketedBlockPlace(room: nat, sh: Shape)
    requires 2 <= room <= 7
    ensures (if room == 7 then 223 else 124 + 14 * room) <= TailState(true, room, true, sh)
    ensures TailState(true, room, true, sh) <= (if room == 7 then 236 else 137 + 14 * room)
  {
  }

  lemma BareBlockMoves(room: nat, sh: Shape, c: char)
    requires 2 <= room <= 7
    ensures MoveOn(TailState(false, room, true, sh), c) == TailStep(false, room, true, sh, c)
  {
    BareBlockPlace(room, sh);
    hide TailState, TailStep, Moves250To262, Moves263To275, Moves276To288, Moves289To301, Moves302To314, Moves315To327;
    if IsHexDigit(c) {
      match room
      case 2 => BareBlockOfTwoOnDigit(sh, c);
      case 3 => BareBlockOfThreeOnDigit(sh, c);
      case 4 => BareBlockOfFourOnDigit(sh, c);
      case 5 => BareBlockOfFiveOnDigit(sh, c);
      case 6 => BareBlockOfSixOnDigit(sh, c);
      case 7 => BareBlockOfSevenOnDigit(sh, c);
    } else {
      match room
      case 2 => BareBlockOfTwoOnMark(sh, c);
      case 3 => BareBlockOfThreeOnMark(sh, c);
      case 4 => BareBlockOfFourOnMark(sh, c);
      case 5 => BareBlockOfFiveOnMark(sh, c);
      case 6 => BareBlockOfSixOnMark(sh, c);
      case 7 => BareBlockOfSevenOnMark(sh, c);
    }
  }

  lemma BracketedBlockMoves(room: nat, sh: Shape, c: char)
    requires 2 <= room <= 7
    ensures MoveOn(TailState(true, room, true, sh), c) == TailStep(true, room, true, sh, c)
  {
    BracketedBlockPlace(room, sh);
    hide TailState, TailStep, Moves152To165, Moves166To179, Moves180To193, Moves194To207, Moves208To221, Moves222To236;
    if IsHexDigit(c) {
      match room
      case 2 => BracketedBlockOfTwoOnDigit(sh, c);
      case 3 => BracketedBlockOfThreeOnDigit(sh, c);
      case 4 => BracketedBlockOfFourOnDigit(sh, c);
      case 5 => BracketedBlockOfFiveOnDigit(sh, c);
      case 6 => BracketedBlockOfSixOnDigit(sh, c);
      case 7 => BracketedBlockOfSevenOnDigit(sh, c);
    } else {
      match room
      case 2 => BracketedBlockOfTwoOnMark(sh, c);
      case 3 => BracketedBlockOfThreeOnMark(sh, c);
      case 4 => BracketedBlockOfFourOnMark(sh, c);
      case 5 => BracketedBlockOfFiveOnMark(sh, c);
      case 6 => BracketedBlockOfSixOnMark(sh, c);
      case 7 => BracketedBlockOfSevenOnMark(sh, c);
    }
  }

  // A token that has begun hides what came before it.
  lemma TokenHidesTheGap(bracket: bool, room: nat, untouched: bool, sh: Shape, c: char)
    requires !sh.Empty? && 2 <= room
    ensures TailState(bracket, room, untouched, sh) == TailState(bracket, room, true, sh)
    ensures TailStep(bracket, room, untouched, sh, c) == TailStep(bracket, room, true, sh, c)
  {
    assert !Grow(sh, c).Empty?;
    hide Grow, LastGroupState, QuadState;
  }

  lemma TailMoves(bracket: bool, room: nat, untouched: bool, sh: Shape, c: char)
    requires room <= 7 && (room == 7 ==> untouched) && (room == 0 ==> untouched && sh.Empty?)
    ensures MoveOn(TailState(bracket, room, untouched, sh), c) == TailStep(bracket, room, untouched, sh, c)
  {
    if !sh.Empty? && 2 <= room {
      TokenHidesTheGap(bracket, room, untouched, sh, c);
    }
    hide MoveOn, TailState, TailStep;
    if room <= 1 {
      if bracket { BracketedNarrowMoves(room, untouched, sh, c); } else { BareNarrowMoves(room, untouched, sh, c); }
    } else if sh.Empty? && !untouched {
      if bracket { BracketedSeparatorMoves(room, c); } else { BareSeparatorMoves(room, c); }
    } else {
      if bracket { BracketedBlockMoves(room, sh, c); } else { BareBlockMoves(room, sh, c); }
    }
  }

  // -------- the automaton follows the reader --------

  lemma ClosedFollows(r: Reading, c: char)
    requires WellFormed(r) && (r.closed || r.gap.HalfGap?)
    ensures Next(r, c).Some? ==> WellFormed(Next(r, c).value)
    ensures MoveOn(StateOf(r), c) == MoveFor(Next(r, c))
  {
    if Next(r, c).Some? {
      NextWellFormed(r, c);
    }
  }

  // A reading and the next one, as the shape of the unfinished token sees them.
  lemma TokenShapes(r: Reading, c: char)
    requires WellFormed(r)
    ensures Len(ShapeOf(r.tok)) == |r.tok| && (IsDecOctet(r.tok) <==> IsOctetShape(ShapeOf(r.tok)))
    ensures ShapeOf(r.tok + [c]) == Grow(ShapeOf(r.tok), c)
    ensures IsHexDigit(c) && |r.tok| < 4 ==> (IsDecOctet(r.tok + [c]) <==> IsOctetShape(Grow(ShapeOf(r.tok), c)))
    ensures Next(r, c).Some? ==> WellFormed(Next(r, c).value)
  {
    ShapeOfToken(r.tok);
    ShapeOfSnoc(r.tok, c);
    if IsHexDigit(c) && |r.tok| < 4 {
      ShapeOfToken(r.tok + [c]);
    }
    if Next(r, c).Some? {
      NextWellFormed(r, c);
    }
  }

  // Where a reading stands, by what it is reading.
  lemma QuadPlace(r: Reading)
    requires WellFormed(r) && !r.closed && r.quad != []
    ensures StateOf(r) == QuadState(KindOfQuad(r), |r.quad|, ShapeOf(r.tok))
    ensures KindOf(r) == QuadIp(KindOfQuad(r), |r.quad|, ShapeOf(r.tok))
    ensures (ShapeOf(r.tok).Empty? <==> r.tok == "") && 1 <= |r.quad| <= 3
  {
    ShapeOfToken(r.tok);
  }

  lemma HeadPlace(r: Reading)
    requires WellFormed(r) && !r.closed && r.quad == [] && r.gap.NoGap?
    ensures StateOf(r) == HeadState(r.bracket, |r.left|, ShapeOf(r.tok))
    ensures KindOf(r) == HeadIp(r.bracket, |r.left|, ShapeOf(r.tok))
    ensures (ShapeOf(r.tok).Empty? <==> r.tok == "") && |r.left| <= 7
  {
    ShapeOfToken(r.tok);
  }

  lemma TailPlace(r: Reading)
    requires WellFormed(r) && !r.closed && r.quad == [] && r.gap.FullGap?
    ensures StateOf(r) == TailState(r.bracket, Room(r), r.right == [], ShapeOf(r.tok))
    ensures KindOf(r) == TailIp(r.bracket, r.right == [], ShapeOf(r.tok))
    ensures (ShapeOf(r.tok).Empty? <==> r.tok == "") && 0 <= Room(r) <= 7
  {
    ShapeOfToken(r.tok);
  }

  // What the reader does with a character.
  lemma NextOnDigit(r: Reading, c: char)
    requires !r.closed && IsHexDigit(c)
    ensures Next(r, c) == OnHexDigit(r, c)
  {
    hide OnColon, OnDot, OnHexDigit, Complete6;
  }

  lemma NextOnMark(r: Reading, c: char)
    requires !r.closed && !IsHexDigit(c)
    ensures Next(r, c) ==
      if c == ':' then OnColon(r)
      else if c == '.' then OnDot(r)
      else if c == '[' then if r == START then Some(r.(bracket := true)) else None
      else if c == ']' then if r.bracket && Complete6(r) then Some(r.(closed := true)) else None
      else None
  {
    hide OnColon, OnDot, Complete6;
  }

  lemma QuadFollowsOnDigit(r: Reading, c: char)
    requires WellFormed(r) && !r.closed && r.quad != [] && IsHexDigit(c)
    ensures Next(r, c).Some? ==> WellFormed(Next(r, c).value)
    ensures QuadStep(KindOfQuad(r), |r.quad|, ShapeOf(r.tok), c) == MoveFor(Next(r, c))
  {
    TokenShapes(r, c);
    NextOnDigit(r, c);
    OctetOnDigit(r, c);
    if Next(r, c).Some? {
      QuadPlace(Next(r, c).value);
    }
    hide Next, WellFormed, StateOf, KindOf, QuadState, QuadIp, ShapeOf, Grow, IsOctetShape, IsDecOctet;
  }

  lemma OctetOnDigit(r: Reading, c: char)
    requires WellFormed(r) && !r.closed && r.quad != [] && IsHexDigit(c)
    ensures OnHexDigit(r, c) == (if IsOctetShape(Grow(ShapeOf(r.tok), c)) then Some(r.(tok := r.tok + [c])) else None)
  {
    TokenShapes(r, c);
    assert |r.tok| <= 3;
    assert OnHexDigit(r, c) == if IsDecOctet(r.tok + [c]) then Some(r.(tok := r.tok + [c])) else None;
    if |r.tok| == 3 {
      assert |r.tok + [c]| == 4;
    }
  }

  lemma QuadFollowsOnMark(r: Reading, c: char)
    requires WellFormed(r) && !r.closed && r.quad != [] && !IsHexDigit(c)
    ensures Next(r, c).Some? ==> WellFormed(Next(r, c).value)
    ensures QuadStep(KindOfQuad(r), |r.quad|, ShapeOf(r.tok), c) == MoveFor(Next(r, c))
  {
    TokenShapes(r, c);
    NextOnMark(r, c);
    QuadPlace(r);
    if Next(r, c).Some? && !Next(r, c).value.closed {
      QuadPlace(Next(r, c).value);
    }
    hide Next, QuadState, Grow;
  }

  lemma HeadFollowsOnDigit(r: Reading, c: char)
    requires WellFormed(r) && !r.closed && r.quad == [] && r.gap.NoGap? && IsHexDigit(c)
    ensures Next(r, c).Some? ==> WellFormed(Next(r, c).value)
    ensures HeadStep(r.bracket, |r.left|, ShapeOf(r.tok), c) == MoveFor(Next(r, c))
  {
    hide Next, WellFormed, StateOf, KindOf, HeadState, HeadIp, ShapeOf, Grow, IsDecOctet, IsH16, AllH16, AllOctets;
    TokenShapes(r, c);
    NextOnDigit(r, c);
    if Next(r, c).Some? {
      HeadPlace(Next(r, c).value);
    }
  }

  lemma HeadFollowsOnMark(r: Reading, c: char)
    requires WellFormed(r) && !r.closed && r.quad == [] && r.gap.NoGap? && !IsHexDigit(c)
    ensures Next(r, c).Some? ==> WellFormed(Next(r, c).value)
    ensures HeadStep(r.bracket, |r.left|, ShapeOf(r.tok), c) == MoveFor(Next(r, c))
  {
    TokenShapes(r, c);
    NextOnMark(r, c);
    HeadPlace(r);
    hide Next, Grow;
    if c == ':' {
      HeadFollowsOnColon(r);
    } else if c == '.' {
      HeadFollowsOnDot(r);
    } else {
      hide OnColon, OnDot;
    }
  }

  lemma HeadFollowsOnColon(r: Reading)
    requires WellFormed(r) && !r.closed && r.quad == [] && r.gap.NoGap? && Next(r, ':') == OnColon(r)
    ensures OnColon(r).Some? ==> WellFormed(OnColon(r).value)
    ensures HeadColon(r.bracket, |r.left|, ShapeOf(r.tok)) == MoveFor(OnColon(r))
  {
    if OnColon(r).Some? {
      NextWellFormed(r, ':');
    }
    HeadPlace(r);
    assert r.tok == "" ==> ShapeOf(r.tok) == ShapeOf("");
  }

  lemma HeadFollowsOnDot(r: Reading)
    requires WellFormed(r) && !r.closed && r.quad == [] && r.gap.NoGap? && Next(r, '.') == OnDot(r)
    ensures OnDot(r).Some? ==> WellFormed(OnDot(r).value)
    ensures HeadDot(r.bracket, |r.left|, ShapeOf(r.tok)) == MoveFor(OnDot(r))
  {
    ShapeOfToken(r.tok);
    if OnDot(r).Some? {
      NextWellFormed(r, '.');
      QuadPlace(OnDot(r).value);
    }
    hide QuadState, HeadState, Next;
  }

  lemma TailFollowsOnDigit(r: Reading, c: char)
    requires WellFormed(r) && !r.closed && r.quad == [] && r.gap.FullGap? && IsHexDigit(c)
    ensures Next(r, c).Some? ==> WellFormed(Next(r, c).value)
    ensures TailStep(r.bracket, Room(r), r.right == [], ShapeOf(r.tok), c) == MoveFor(Next(r, c))
  {
    hide Next, WellFormed, StateOf, KindOf, TailState, TailIp, ShapeOf, Grow, IsDecOctet, IsH16, AllH16, AllOctets;
    TokenShapes(r, c);
    NextOnDigit(r, c);
    if Next(r, c).Some? {
      TailPlace(Next(r, c).value);
      assert Room(Next(r, c).value) == Room(r);
    }
    TailPlace(r);
  }

  lemma TailFollowsOnMark(r: Reading, c: char)
    requires WellFormed(r) && !r.closed && r.quad == [] && r.gap.FullGap? && !IsHexDigit(c)
    ensures Next(r, c).Some? ==> WellFormed(Next(r, c).value)
    ensures TailStep(r.bracket, Room(r), r.right == [], ShapeOf(r.tok), c) == MoveFor(Next(r, c))
  {
    TokenShapes(r, c);
    NextOnMark(r, c);
    TailPlace(r);
    hide Next, Grow, TailState, QuadState;
    if c == ':' {
      TailFollowsOnColon(r);
    } else if c == '.' {
      TailFollowsOnDot(r);
    } else {
      hide OnColon, OnDot;
    }
  }

  lemma TailFollowsOnColon(r: Reading)
    requires WellFormed(r) && !r.closed && r.quad == [] && r.gap.FullGap? && Next(r, ':') == OnColon(r)
    ensures OnColon(r).Some? ==> WellFormed(OnColon(r).value)
    ensures TailStep(r.bracket, Room(r), r.right == [], ShapeOf(r.tok), ':') == MoveFor(OnColon(r))
  {
    TailPlace(r);
    if OnColon(r).Some? {
      NextWellFormed(r, ':');
      TailPlace(OnColon(r).value);
    }
    hide QuadState, TailState, Next, WellFormed, Grow;
  }

  lemma TailFollowsOnDot(r: Reading)
    requires WellFormed(r) && !r.closed && r.quad == [] && r.gap.FullGap? && Next(r, '.') == OnDot(r)
    ensures OnDot(r).Some? ==> WellFormed(OnDot(r).value)
    ensures TailStep(r.bracket, Room(r), r.right == [], ShapeOf(r.tok), '.') == MoveFor(OnDot(r))
  {
    ShapeOfToken(r.tok);
    if OnDot(r).Some? {
      NextWellFormed(r, '.');
      QuadPlace(OnDot(r).value);
    }
    hide QuadState, TailState, Next;
  }

  // One step of the generated automaton is one step of the reader, on every character.
  lemma MoveFollowsReader(r: Reading, c: char)
    requires WellFormed(r)
    ensures Next(r, c).Some? ==> WellFormed(Next(r, c).value)
    ensures MoveOn(StateOf(r), c) == MoveFor(Next(r, c))
  {
    ShapeOfToken(r.tok);
    if r.closed || r.gap.HalfGap? {
      ClosedFollows(r, c);
    } else if r.quad != [] {
      if IsHexDigit(c) { QuadFollowsOnDigit(r, c); } else { QuadFollowsOnMark(r, c); }
      QuadMoves(KindOfQuad(r), |r.quad|, ShapeOf(r.tok), c);
    } else if r.gap.NoGap? {
      if IsHexDigit(c) { HeadFollowsOnDigit(r, c); } else { HeadFollowsOnMark(r, c); }
      if r.bracket {
        BracketedHeadMoves(|r.left|, ShapeOf(r.tok), c);
      } else {
        BareHeadMoves(|r.left|, ShapeOf(r.tok), c);
      }
    } else {
      if IsHexDigit(c) { TailFollowsOnDigit(r, c); } else { TailFollowsOnMark(r, c); }
      TailMoves(r.bracket, Room(r), r.right == [], ShapeOf(r.tok), c);
    }
  }

  // A state is final exactly when its reading is complete.
  lemma FinalIsComplete(r: Reading)
    requires WellFormed(r)
    ensures StateOf(r) >= FIRST_FINAL <==> !KindOf(r).NoIp?
  {
    if r.closed || r.gap.HalfGap? {
    } else if r.quad != [] {
      QuadPlace(r);
      FinalQuad(KindOfQuad(r), |r.quad|, ShapeOf(r.tok));
    } else if r.gap.NoGap? {
      HeadPlace(r);
      FinalHead(r.bracket, |r.left|, ShapeOf(r.tok));
    } else {
      TailPlace(r);
      FinalTail(r.bracket, Room(r), r.right == [], ShapeOf(r.tok));
    }
    hide QuadState, HeadState, TailState, ShapeOf;
  }

  lemma FinalQuad(kind: QuadKind, dots: nat, sh: Shape)
    requires 1 <= dots <= 3
    ensures QuadState(kind, dots, sh) >= FIRST_FINAL <==> !QuadIp(kind, dots, sh).NoIp?
  {
  }

  lemma FinalHead(bracket: bool, left: nat, sh: Shape)
    requires left <= 7
    ensures HeadState(bracket, left, sh) >= FIRST_FINAL <==> !HeadIp(bracket, left, sh).NoIp?
  {
  }

  lemma FinalTail(bracket: bool, room: nat, untouched: bool, sh: Shape)
    requires room <= 7 && (room == 7 ==> untouched) && (room == 0 ==> untouched && sh.Empty?)
    ensures TailState(bracket, room, untouched, sh) >= FIRST_FINAL <==> !TailIp(bracket, untouched, sh).NoIp?
  {
  }
}
