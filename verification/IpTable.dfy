/**
  The transitions of the generated automaton, state by state: ext/asyncengine/ip_parser.c,
  lines 50 to 5616. State 0 is the error state; states from 237 on are final. A transition
  that runs an action of ip_parser.rl (lines 27 to 37) sets `ip_type` on its way.
 */
module IpTable {
  import opened IpGrammar

  datatype IpType = NoIp | Ipv4 | Ipv6 | Ipv6Reference

  datatype Move = Err | To(cs: int) | Set(cs: int, ipType: IpType)

  const FIRST_STATE := 1
  const FIRST_FINAL := 237
  const ERROR_STATE := 0

  predicate IsHexLetter(c: char) {
    'A' <= c <= 'F' || 'a' <= c <= 'f'
  }

  function MoveOn(cs: int, c: char): Move {
    if cs <= 18 then Moves1To18(cs, c)
    else if cs <= 43 then Moves19To43(cs, c)
    else if cs <= 62 then Moves44To62(cs, c)
    else if cs <= 70 then Moves63To70(cs, c)
    else if cs <= 75 then Moves71To75(cs, c)
    else if cs <= 85 then Moves76To85(cs, c)
    else if cs <= 115 then Moves86To115(cs, c)
    else if cs <= 138 then Moves116To138(cs, c)
    else if cs <= 151 then Moves139To151(cs, c)
    else if cs <= 165 then Moves152To165(cs, c)
    else if cs <= 179 then Moves166To179(cs, c)
    else if cs <= 193 then Moves180To193(cs, c)
    else if cs <= 207 then Moves194To207(cs, c)
    else if cs <= 221 then Moves208To221(cs, c)
    else if cs <= 236 then Moves222To236(cs, c)
    else if cs <= 241 then Moves237To241(cs, c)
    else if cs <= 245 then Moves242To245(cs, c)
    else if cs <= 249 then Moves246To249(cs, c)
    else if cs <= 262 then Moves250To262(cs, c)
    else if cs <= 275 then Moves263To275(cs, c)
    else if cs <= 288 then Moves276To288(cs, c)
    else if cs <= 301 then Moves289To301(cs, c)
    else if cs <= 314 then Moves302To314(cs, c)
    else if cs <= 327 then Moves315To327(cs, c)
    else Err
  }

  function Moves1To18(cs: int, c: char): Move {
    match cs
    case 1 => if c == ':' then To(83) else if c == '[' then To(86) else if c == '0' then To(2)
      else if c == '1' then To(76) else if c == '2' then To(79) else if '3' <= c <= '9' then To(82)
      else if IsHexLetter(c) then To(85) else Err
    case 2 => if c == '.' then To(3) else if c == ':' then To(19) else if IsHexDigit(c) then To(16) else Err
    case 3 => if c == '0' then To(4) else if c == '1' then To(12) else if c == '2' then To(14)
      else if '3' <= c <= '9' then To(13) else Err
    case 4 => if c == '.' then To(5) else Err
    case 5 => if c == '0' then To(6) else if c == '1' then To(8) else if c == '2' then To(10)
      else if '3' <= c <= '9' then To(9) else Err
    case 6 => if c == '.' then To(7) else Err
    case 7 => if c == '0' then Set(237, Ipv4) else if c == '1' then Set(238, Ipv4)
      else if c == '2' then Set(240, Ipv4) else if '3' <= c <= '9' then Set(239, Ipv4) else Err
    case 8 => if c == '.' then To(7) else if IsDigit(c) then To(9) else Err
    case 9 => if c == '.' then To(7) else if IsDigit(c) then To(6) else Err
    case 10 => if c == '.' then To(7) else if '0' <= c <= '4' then To(9) else if c == '5' then To(11)
      else if '6' <= c <= '9' then To(6) else Err
    case 11 => if c == '.' then To(7) else if '0' <= c <= '5' then To(6) else Err
    case 12 => if c == '.' then To(5) else if IsDigit(c) then To(13) else Err
    case 13 => if c == '.' then To(5) else if IsDigit(c) then To(4) else Err
    case 14 => if c == '.' then To(5) else if '0' <= c <= '4' then To(13) else if c == '5' then To(15)
      else if '6' <= c <= '9' then To(4) else Err
    case 15 => if c == '.' then To(5) else if '0' <= c <= '5' then To(4) else Err
    case 16 => if c == ':' then To(19) else if IsHexDigit(c) then To(17) else Err
    case 17 => if c == ':' then To(19) else if IsHexDigit(c) then To(18) else Err
    case 18 => if c == ':' then To(19) else Err
    case _ => Err
  }

  function Moves19To43(cs: int, c: char): Move {
    match cs
    case 19 => if c == ':' then Set(302, Ipv6) else if IsHexDigit(c) then To(20) else Err
    case 20 => if c == ':' then To(24) else if IsHexDigit(c) then To(21) else Err
    case 21 => if c == ':' then To(24) else if IsHexDigit(c) then To(22) else Err
    case 22 => if c == ':' then To(24) else if IsHexDigit(c) then To(23) else Err
    case 23 => if c == ':' then To(24) else Err
    case 24 => if c == ':' then Set(289, Ipv6) else if IsHexDigit(c) then To(25) else Err
    case 25 => if c == ':' then To(29) else if IsHexDigit(c) then To(26) else Err
    case 26 => if c == ':' then To(29) else if IsHexDigit(c) then To(27) else Err
    case 27 => if c == ':' then To(29) else if IsHexDigit(c) then To(28) else Err
    case 28 => if c == ':' then To(29) else Err
    case 29 => if c == ':' then Set(276, Ipv6) else if IsHexDigit(c) then To(30) else Err
    case 30 => if c == ':' then To(34) else if IsHexDigit(c) then To(31) else Err
    case 31 => if c == ':' then To(34) else if IsHexDigit(c) then To(32) else Err
    case 32 => if c == ':' then To(34) else if IsHexDigit(c) then To(33) else Err
    case 33 => if c == ':' then To(34) else Err
    case 34 => if c == ':' then Set(263, Ipv6) else if IsHexDigit(c) then To(35) else Err
    case 35 => if c == ':' then To(39) else if IsHexDigit(c) then To(36) else Err
    case 36 => if c == ':' then To(39) else if IsHexDigit(c) then To(37) else Err
    case 37 => if c == ':' then To(39) else if IsHexDigit(c) then To(38) else Err
    case 38 => if c == ':' then To(39) else Err
    case 39 => if c == ':' then Set(250, Ipv6) else if IsHexDigit(c) then To(40) else Err
    case 40 => if c == ':' then To(44) else if IsHexDigit(c) then To(41) else Err
    case 41 => if c == ':' then To(44) else if IsHexDigit(c) then To(42) else Err
    case 42 => if c == ':' then To(44) else if IsHexDigit(c) then To(43) else Err
    case 43 => if c == ':' then To(44) else Err
    case _ => Err
  }

  function Moves44To62(cs: int, c: char): Move {
    match cs
    case 44 => if c == ':' then Set(249, Ipv6) else if c == '0' then To(45) else if c == '1' then To(63)
      else if c == '2' then To(66) else if '3' <= c <= '9' then To(69)
      else if IsHexLetter(c) then To(70) else Err
    case 45 => if c == '.' then To(46) else if c == ':' then To(62) else if IsHexDigit(c) then To(59) else Err
    case 46 => if c == '0' then To(47) else if c == '1' then To(55) else if c == '2' then To(57)
      else if '3' <= c <= '9' then To(56) else Err
    case 47 => if c == '.' then To(48) else Err
    case 48 => if c == '0' then To(49) else if c == '1' then To(51) else if c == '2' then To(53)
      else if '3' <= c <= '9' then To(52) else Err
    case 49 => if c == '.' then To(50) else Err
    case 50 => if c == '0' then Set(237, Ipv6) else if c == '1' then Set(242, Ipv6)
      else if c == '2' then Set(244, Ipv6) else if '3' <= c <= '9' then Set(243, Ipv6) else Err
    case 51 => if c == '.' then To(50) else if IsDigit(c) then To(52) else Err
    case 52 => if c == '.' then To(50) else if IsDigit(c) then To(49) else Err
    case 53 => if c == '.' then To(50) else if '0' <= c <= '4' then To(52) else if c == '5' then To(54)
      else if '6' <= c <= '9' then To(49) else Err
    case 54 => if c == '.' then To(50) else if '0' <= c <= '5' then To(49) else Err
    case 55 => if c == '.' then To(48) else if IsDigit(c) then To(56) else Err
    case 56 => if c == '.' then To(48) else if IsDigit(c) then To(47) else Err
    case 57 => if c == '.' then To(48) else if '0' <= c <= '4' then To(56) else if c == '5' then To(58)
      else if '6' <= c <= '9' then To(47) else Err
    case 58 => if c == '.' then To(48) else if '0' <= c <= '5' then To(47) else Err
    case 59 => if c == ':' then To(62) else if IsHexDigit(c) then To(60) else Err
    case 60 => if c == ':' then To(62) else if IsHexDigit(c) then To(61) else Err
    case 61 => if c == ':' then To(62) else Err
    case 62 => if c == ':' then Set(237, Ipv6) else if IsHexDigit(c) then Set(246, Ipv6) else Err
    case _ => Err
  }

  function Moves63To70(cs: int, c: char): Move {
    match cs
    case 63 => if c == '.' then To(46) else if c == ':' then To(62) else if IsDigit(c) then To(64)
      else if IsHexLetter(c) then To(59) else Err
    case 64 => if c == '.' then To(46) else if c == ':' then To(62) else if IsDigit(c) then To(65)
      else if IsHexLetter(c) then To(60) else Err
    case 65 => if c == '.' then To(46) else if c == ':' then To(62) else if IsHexDigit(c) then To(61) else Err
    case 66 => if c == '.' then To(46) else if c == ':' then To(62) else if '0' <= c <= '4' then To(64)
      else if c == '5' then To(67) else if '6' <= c <= '9' then To(68)
      else if IsHexLetter(c) then To(59) else Err
    case 67 => if c == '.' then To(46) else if c == ':' then To(62) else if '0' <= c <= '5' then To(65)
      else if '6' <= c <= '9' then To(60) else if IsHexLetter(c) then To(60) else Err
    case 68 => if c == '.' then To(46) else if c == ':' then To(62) else if IsHexDigit(c) then To(60) else Err
    case 69 => if c == '.' then To(46) else if c == ':' then To(62) else if IsDigit(c) then To(68)
      else if IsHexLetter(c) then To(59) else Err
    case 70 => if c == ':' then To(62) else if IsHexDigit(c) then To(59) else Err
    case _ => Err
  }

  function Moves71To75(cs: int, c: char): Move {
    match cs
    case 71 => if IsHexDigit(c) then Set(246, Ipv6) else Err
    case 72 => if c == '0' then Set(251, Ipv6) else if c == '1' then Set(255, Ipv6)
      else if c == '2' then Set(258, Ipv6) else if '3' <= c <= '9' then Set(261, Ipv6)
      else if IsHexLetter(c) then Set(262, Ipv6) else Err
    case 73 => if c == '0' then Set(264, Ipv6) else if c == '1' then Set(268, Ipv6)
      else if c == '2' then Set(271, Ipv6) else if '3' <= c <= '9' then Set(274, Ipv6)
      else if IsHexLetter(c) then Set(275, Ipv6) else Err
    case 74 => if c == '0' then Set(277, Ipv6) else if c == '1' then Set(281, Ipv6)
      else if c == '2' then Set(284, Ipv6) else if '3' <= c <= '9' then Set(287, Ipv6)
      else if IsHexLetter(c) then Set(288, Ipv6) else Err
    case 75 => if c == '0' then Set(290, Ipv6) else if c == '1' then Set(294, Ipv6)
      else if c == '2' then Set(297, Ipv6) else if '3' <= c <= '9' then Set(300, Ipv6)
      else if IsHexLetter(c) then Set(301, Ipv6) else Err
    case _ => Err
  }

  function Moves76To85(cs: int, c: char): Move {
    match cs
    case 76 => if c == '.' then To(3) else if c == ':' then To(19) else if IsDigit(c) then To(77)
      else if IsHexLetter(c) then To(16) else Err
    case 77 => if c == '.' then To(3) else if c == ':' then To(19) else if IsDigit(c) then To(78)
      else if IsHexLetter(c) then To(17) else Err
    case 78 => if c == '.' then To(3) else if c == ':' then To(19) else if IsHexDigit(c) then To(18) else Err
    case 79 => if c == '.' then To(3) else if c == ':' then To(19) else if '0' <= c <= '4' then To(77)
      else if c == '5' then To(80) else if '6' <= c <= '9' then To(81)
      else if IsHexLetter(c) then To(16) else Err
    case 80 => if c == '.' then To(3) else if c == ':' then To(19) else if '0' <= c <= '5' then To(78)
      else if '6' <= c <= '9' then To(17) else if IsHexLetter(c) then To(17) else Err
    case 81 => if c == '.' then To(3) else if c == ':' then To(19) else if IsHexDigit(c) then To(17) else Err
    case 82 => if c == '.' then To(3) else if c == ':' then To(19) else if IsDigit(c) then To(81)
      else if IsHexLetter(c) then To(16) else Err
    case 83 => if c == ':' then Set(315, Ipv6) else Err
    case 84 => if c == '0' then Set(303, Ipv6) else if c == '1' then Set(307, Ipv6)
      else if c == '2' then Set(310, Ipv6) else if '3' <= c <= '9' then Set(313, Ipv6)
      else if IsHexLetter(c) then Set(314, Ipv6) else Err
    case 85 => if c == ':' then To(19) else if IsHexDigit(c) then To(16) else Err
    case _ => Err
  }

  function Moves86To115(cs: int, c: char): Move {
    match cs
    case 86 => if c == ':' then To(222) else if IsHexDigit(c) then To(87) else Err
    case 87 => if c == ':' then To(91) else if IsHexDigit(c) then To(88) else Err
    case 88 => if c == ':' then To(91) else if IsHexDigit(c) then To(89) else Err
    case 89 => if c == ':' then To(91) else if IsHexDigit(c) then To(90) else Err
    case 90 => if c == ':' then To(91) else Err
    case 91 => if c == ':' then To(208) else if IsHexDigit(c) then To(92) else Err
    case 92 => if c == ':' then To(96) else if IsHexDigit(c) then To(93) else Err
    case 93 => if c == ':' then To(96) else if IsHexDigit(c) then To(94) else Err
    case 94 => if c == ':' then To(96) else if IsHexDigit(c) then To(95) else Err
    case 95 => if c == ':' then To(96) else Err
    case 96 => if c == ':' then To(194) else if IsHexDigit(c) then To(97) else Err
    case 97 => if c == ':' then To(101) else if IsHexDigit(c) then To(98) else Err
    case 98 => if c == ':' then To(101) else if IsHexDigit(c) then To(99) else Err
    case 99 => if c == ':' then To(101) else if IsHexDigit(c) then To(100) else Err
    case 100 => if c == ':' then To(101) else Err
    case 101 => if c == ':' then To(180) else if IsHexDigit(c) then To(102) else Err
    case 102 => if c == ':' then To(106) else if IsHexDigit(c) then To(103) else Err
    case 103 => if c == ':' then To(106) else if IsHexDigit(c) then To(104) else Err
    case 104 => if c == ':' then To(106) else if IsHexDigit(c) then To(105) else Err
    case 105 => if c == ':' then To(106) else Err
    case 106 => if c == ':' then To(166) else if IsHexDigit(c) then To(107) else Err
    case 107 => if c == ':' then To(111) else if IsHexDigit(c) then To(108) else Err
    case 108 => if c == ':' then To(111) else if IsHexDigit(c) then To(109) else Err
    case 109 => if c == ':' then To(111) else if IsHexDigit(c) then To(110) else Err
    case 110 => if c == ':' then To(111) else Err
    case 111 => if c == ':' then To(152) else if IsHexDigit(c) then To(112) else Err
    case 112 => if c == ':' then To(116) else if IsHexDigit(c) then To(113) else Err
    case 113 => if c == ':' then To(116) else if IsHexDigit(c) then To(114) else Err
    case 114 => if c == ':' then To(116) else if IsHexDigit(c) then To(115) else Err
    case 115 => if c == ':' then To(116) else Err
    case _ => Err
  }

  function Moves116To138(cs: int, c: char): Move {
    match cs
    case 116 => if c == ':' then To(150) else if c == '0' then To(117) else if c == '1' then To(143)
      else if c == '2' then To(146) else if '3' <= c <= '9' then To(149)
      else if IsHexLetter(c) then To(151) else Err
    case 117 => if c == '.' then To(118) else if c == ':' then To(139) else if IsHexDigit(c) then To(136) else Err
    case 118 => if c == '0' then To(119) else if c == '1' then To(132) else if c == '2' then To(134)
      else if '3' <= c <= '9' then To(133) else Err
    case 119 => if c == '.' then To(120) else Err
    case 120 => if c == '0' then To(121) else if c == '1' then To(128) else if c == '2' then To(130)
      else if '3' <= c <= '9' then To(129) else Err
    case 121 => if c == '.' then To(122) else Err
    case 122 => if c == '0' then To(123) else if c == '1' then To(124) else if c == '2' then To(126)
      else if '3' <= c <= '9' then To(125) else Err
    case 123 => if c == ']' then Set(237, Ipv6Reference) else Err
    case 124 => if c == ']' then Set(237, Ipv6Reference) else if IsDigit(c) then To(125) else Err
    case 125 => if c == ']' then Set(237, Ipv6Reference) else if IsDigit(c) then To(123) else Err
    case 126 => if c == ']' then Set(237, Ipv6Reference) else if '0' <= c <= '4' then To(125)
      else if c == '5' then To(127) else if '6' <= c <= '9' then To(123) else Err
    case 127 => if c == ']' then Set(237, Ipv6Reference) else if '0' <= c <= '5' then To(123) else Err
    case 128 => if c == '.' then To(122) else if IsDigit(c) then To(129) else Err
    case 129 => if c == '.' then To(122) else if IsDigit(c) then To(121) else Err
    case 130 => if c == '.' then To(122) else if '0' <= c <= '4' then To(129) else if c == '5' then To(131)
      else if '6' <= c <= '9' then To(121) else Err
    case 131 => if c == '.' then To(122) else if '0' <= c <= '5' then To(121) else Err
    case 132 => if c == '.' then To(120) else if IsDigit(c) then To(133) else Err
    case 133 => if c == '.' then To(120) else if IsDigit(c) then To(119) else Err
    case 134 => if c == '.' then To(120) else if '0' <= c <= '4' then To(133) else if c == '5' then To(135)
      else if '6' <= c <= '9' then To(119) else Err
    case 135 => if c == '.' then To(120) else if '0' <= c <= '5' then To(119) else Err
    case 136 => if c == ':' then To(139) else if IsHexDigit(c) then To(137) else Err
    case 137 => if c == ':' then To(139) else if IsHexDigit(c) then To(138) else Err
    case 138 => if c == ':' then To(139) else Err
    case _ => Err
  }

  function Moves139To151(cs: int, c: char): Move {
    match cs
    case 139 => if c == ':' then To(123) else if IsHexDigit(c) then To(140) else Err
    case 140 => if c == ']' then Set(237, Ipv6Reference) else if IsHexDigit(c) then To(141) else Err
    case 141 => if c == ']' then Set(237, Ipv6Reference) else if IsHexDigit(c) then To(142) else Err
    case 142 => if c == ']' then Set(237, Ipv6Reference) else if IsHexDigit(c) then To(123) else Err
    case 143 => if c == '.' then To(118) else if c == ':' then To(139) else if IsDigit(c) then To(144)
      else if IsHexLetter(c) then To(136) else Err
    case 144 => if c == '.' then To(118) else if c == ':' then To(139) else if IsDigit(c) then To(145)
      else if IsHexLetter(c) then To(137) else Err
    case 145 => if c == '.' then To(118) else if c == ':' then To(139) else if IsHexDigit(c) then To(138) else Err
    case 146 => if c == '.' then To(118) else if c == ':' then To(139) else if '0' <= c <= '4' then To(144)
      else if c == '5' then To(147) else if '6' <= c <= '9' then To(148)
      else if IsHexLetter(c) then To(136) else Err
    case 147 => if c == '.' then To(118) else if c == ':' then To(139) else if '0' <= c <= '5' then To(145)
      else if '6' <= c <= '9' then To(137) else if IsHexLetter(c) then To(137) else Err
    case 148 => if c == '.' then To(118) else if c == ':' then To(139) else if IsHexDigit(c) then To(137) else Err
    case 149 => if c == '.' then To(118) else if c == ':' then To(139) else if IsDigit(c) then To(148)
      else if IsHexLetter(c) then To(136) else Err
    case 150 => if c == ']' then Set(237, Ipv6Reference) else if IsHexDigit(c) then To(140) else Err
    case 151 => if c == ':' then To(139) else if IsHexDigit(c) then To(136) else Err
    case _ => Err
  }

  function Moves152To165(cs: int, c: char): Move {
    match cs
    case 152 => if c == ']' then Set(237, Ipv6Reference) else if c == '0' then To(153)
      else if c == '1' then To(158) else if c == '2' then To(161) else if '3' <= c <= '9' then To(164)
      else if IsHexLetter(c) then To(165) else Err
    case 153 => if c == '.' then To(118) else if c == ':' then To(157)
      else if c == ']' then Set(237, Ipv6Reference) else if IsHexDigit(c) then To(154) else Err
    case 154 => if c == ':' then To(157) else if c == ']' then Set(237, Ipv6Reference)
      else if IsHexDigit(c) then To(155) else Err
    case 155 => if c == ':' then To(157) else if c == ']' then Set(237, Ipv6Reference)
      else if IsHexDigit(c) then To(156) else Err
    case 156 => if c == ':' then To(157) else if c == ']' then Set(237, Ipv6Reference) else Err
    case 157 => if IsHexDigit(c) then To(140) else Err
    case 158 => if c == '.' then To(118) else if c == ':' then To(157)
      else if c == ']' then Set(237, Ipv6Reference) else if IsDigit(c) then To(159)
      else if IsHexLetter(c) then To(154) else Err
    case 159 => if c == '.' then To(118) else if c == ':' then To(157)
      else if c == ']' then Set(237, Ipv6Reference) else if IsDigit(c) then To(160)
      else if IsHexLetter(c) then To(155) else Err
    case 160 => if c == '.' then To(118) else if c == ':' then To(157)
      else if c == ']' then Set(237, Ipv6Reference) else if IsHexDigit(c) then To(156) else Err
    case 161 => if c == '.' then To(118) else if c == ':' then To(157)
      else if c == ']' then Set(237, Ipv6Reference) else if '0' <= c <= '4' then To(159)
      else if c == '5' then To(162) else if '6' <= c <= '9' then To(163)
      else if IsHexLetter(c) then To(154) else Err
    case 162 => if c == '.' then To(118) else if c == ':' then To(157)
      else if c == ']' then Set(237, Ipv6Reference) else if '0' <= c <= '5' then To(160)
      else if '6' <= c <= '9' then To(155) else if IsHexLetter(c) then To(155) else Err
    case 163 => if c == '.' then To(118) else if c == ':' then To(157)
      else if c == ']' then Set(237, Ipv6Reference) else if IsHexDigit(c) then To(155) else Err
    case 164 => if c == '.' then To(118) else if c == ':' then To(157)
      else if c == ']' then Set(237, Ipv6Reference) else if IsDigit(c) then To(163)
      else if IsHexLetter(c) then To(154) else Err
    case 165 => if c == ':' then To(157) else if c == ']' then Set(237, Ipv6Reference)
      else if IsHexDigit(c) then To(154) else Err
    case _ => Err
  }

  function Moves166To179(cs: int, c: char): Move {
    match cs
    case 166 => if c == ']' then Set(237, Ipv6Reference) else if c == '0' then To(167)
      else if c == '1' then To(172) else if c == '2' then To(175) else if '3' <= c <= '9' then To(178)
      else if IsHexLetter(c) then To(179) else Err
    case 167 => if c == '.' then To(118) else if c == ':' then To(171)
      else if c == ']' then Set(237, Ipv6Reference) else if IsHexDigit(c) then To(168) else Err
    case 168 => if c == ':' then To(171) else if c == ']' then Set(237, Ipv6Reference)
      else if IsHexDigit(c) then To(169) else Err
    case 169 => if c == ':' then To(171) else if c == ']' then Set(237, Ipv6Reference)
      else if IsHexDigit(c) then To(170) else Err
    case 170 => if c == ':' then To(171) else if c == ']' then Set(237, Ipv6Reference) else Err
    case 171 => if c == '0' then To(153) else if c == '1' then To(158) else if c == '2' then To(161)
      else if '3' <= c <= '9' then To(164) else if IsHexLetter(c) then To(165) else Err
    case 172 => if c == '.' then To(118) else if c == ':' then To(171)
      else if c == ']' then Set(237, Ipv6Reference) else if IsDigit(c) then To(173)
      else if IsHexLetter(c) then To(168) else Err
    case 173 => if c == '.' then To(118) else if c == ':' then To(171)
      else if c == ']' then Set(237, Ipv6Reference) else if IsDigit(c) then To(174)
      else if IsHexLetter(c) then To(169) else Err
    case 174 => if c == '.' then To(118) else if c == ':' then To(171)
      else if c == ']' then Set(237, Ipv6Reference) else if IsHexDigit(c) then To(170) else Err
    case 175 => if c == '.' then To(118) else if c == ':' then To(171)
      else if c == ']' then Set(237, Ipv6Reference) else if '0' <= c <= '4' then To(173)
      else if c == '5' then To(176) else if '6' <= c <= '9' then To(177)
      else if IsHexLetter(c) then To(168) else Err
    case 176 => if c == '.' then To(118) else if c == ':' then To(171)
      else if c == ']' then Set(237, Ipv6Reference) else if '0' <= c <= '5' then To(174)
      else if '6' <= c <= '9' then To(169) else if IsHexLetter(c) then To(169) else Err
    case 177 => if c == '.' then To(118) else if c == ':' then To(171)
      else if c == ']' then Set(237, Ipv6Reference) else if IsHexDigit(c) then To(169) else Err
    case 178 => if c == '.' then To(118) else if c == ':' then To(171)
      else if c == ']' then Set(237, Ipv6Reference) else if IsDigit(c) then To(177)
      else if IsHexLetter(c) then To(168) else Err
    case 179 => if c == ':' then To(171) else if c == ']' then Set(237, Ipv6Reference)
      else if IsHexDigit(c) then To(168) else Err
    case _ => Err
  }

  function Moves180To193(cs: int, c: char): Move {
    match cs
    case 180 => if c == ']' then Set(237, Ipv6Reference) else if c == '0' then To(181)
      else if c == '1' then To(186) else if c == '2' then To(189) else if '3' <= c <= '9' then To(192)
      else if IsHexLetter(c) then To(193) else Err
    case 181 => if c == '.' then To(118) else if c == ':' then To(185)
      else if c == ']' then Set(237, Ipv6Reference) else if IsHexDigit(c) then To(182) else Err
    case 182 => if c == ':' then To(185) else if c == ']' then Set(237, Ipv6Reference)
      else if IsHexDigit(c) then To(183) else Err
    case 183 => if c == ':' then To(185) else if c == ']' then Set(237, Ipv6Reference)
      else if IsHexDigit(c) then To(184) else Err
    case 184 => if c == ':' then To(185) else if c == ']' then Set(237, Ipv6Reference) else Err
    case 185 => if c == '0' then To(167) else if c == '1' then To(172) else if c == '2' then To(175)
      else if '3' <= c <= '9' then To(178) else if IsHexLetter(c) then To(179) else Err
    case 186 => if c == '.' then To(118) else if c == ':' then To(185)
      else if c == ']' then Set(237, Ipv6Reference) else if IsDigit(c) then To(187)
      else if IsHexLetter(c) then To(182) else Err
    case 187 => if c == '.' then To(118) else if c == ':' then To(185)
      else if c == ']' then Set(237, Ipv6Reference) else if IsDigit(c) then To(188)
      else if IsHexLetter(c) then To(183) else Err
    case 188 => if c == '.' then To(118) else if c == ':' then To(185)
      else if c == ']' then Set(237, Ipv6Reference) else if IsHexDigit(c) then To(184) else Err
    case 189 => if c == '.' then To(118) else if c == ':' then To(185)
      else if c == ']' then Set(237, Ipv6Reference) else if '0' <= c <= '4' then To(187)
      else if c == '5' then To(190) else if '6' <= c <= '9' then To(191)
      else if IsHexLetter(c) then To(182) else Err
    case 190 => if c == '.' then To(118) else if c == ':' then To(185)
      else if c == ']' then Set(237, Ipv6Reference) else if '0' <= c <= '5' then To(188)
      else if '6' <= c <= '9' then To(183) else if IsHexLetter(c) then To(183) else Err
    case 191 => if c == '.' then To(118) else if c == ':' then To(185)
      else if c == ']' then Set(237, Ipv6Reference) else if IsHexDigit(c) then To(183) else Err
    case 192 => if c == '.' then To(118) else if c == ':' then To(185)
      else if c == ']' then Set(237, Ipv6Reference) else if IsDigit(c) then To(191)
      else if IsHexLetter(c) then To(182) else Err
    case 193 => if c == ':' then To(185) else if c == ']' then Set(237, Ipv6Reference)
      else if IsHexDigit(c) then To(182) else Err
    case _ => Err
  }

  function Moves194To207(cs: int, c: char): Move {
    match cs
    case 194 => if c == ']' then Set(237, Ipv6Reference) else if c == '0' then To(195)
      else if c == '1' then To(200) else if c == '2' then To(203) else if '3' <= c <= '9' then To(206)
      else if IsHexLetter(c) then To(207) else Err
    case 195 => if c == '.' then To(118) else if c == ':' then To(199)
      else if c == ']' then Set(237, Ipv6Reference) else if IsHexDigit(c) then To(196) else Err
    case 196 => if c == ':' then To(199) else if c == ']' then Set(237, Ipv6Reference)
      else if IsHexDigit(c) then To(197) else Err
    case 197 => if c == ':' then To(199) else if c == ']' then Set(237, Ipv6Reference)
      else if IsHexDigit(c) then To(198) else Err
    case 198 => if c == ':' then To(199) else if c == ']' then Set(237, Ipv6Reference) else Err
    case 199 => if c == '0' then To(181) else if c == '1' then To(186) else if c == '2' then To(189)
      else if '3' <= c <= '9' then To(192) else if IsHexLetter(c) then To(193) else Err
    case 200 => if c == '.' then To(118) else if c == ':' then To(199)
      else if c == ']' then Set(237, Ipv6Reference) else if IsDigit(c) then To(201)
      else if IsHexLetter(c) then To(196) else Err
    case 201 => if c == '.' then To(118) else if c == ':' then To(199)
      else if c == ']' then Set(237, Ipv6Reference) else if IsDigit(c) then To(202)
      else if IsHexLetter(c) then To(197) else Err
    case 202 => if c == '.' then To(118) else if c == ':' then To(199)
      else if c == ']' then Set(237, Ipv6Reference) else if IsHexDigit(c) then To(198) else Err
    case 203 => if c == '.' then To(118) else if c == ':' then To(199)
      else if c == ']' then Set(237, Ipv6Reference) else if '0' <= c <= '4' then To(201)
      else if c == '5' then To(204) else if '6' <= c <= '9' then To(205)
      else if IsHexLetter(c) then To(196) else Err
    case 204 => if c == '.' then To(118) else if c == ':' then To(199)
      else if c == ']' then Set(237, Ipv6Reference) else if '0' <= c <= '5' then To(202)
      else if '6' <= c <= '9' then To(197) else if IsHexLetter(c) then To(197) else Err
    case 205 => if c == '.' then To(118) else if c == ':' then To(199)
      else if c == ']' then Set(237, Ipv6Reference) else if IsHexDigit(c) then To(197) else Err
    case 206 => if c == '.' then To(118) else if c == ':' then To(199)
      else if c == ']' then Set(237, Ipv6Reference) else if IsDigit(c) then To(205)
      else if IsHexLetter(c) then To(196) else Err
    case 207 => if c == ':' then To(199) else if c == ']' then Set(237, Ipv6Reference)
      else if IsHexDigit(c) then To(196) else Err
    case _ => Err
  }

  function Moves208To221(cs: int, c: char): Move {
    match cs
    case 208 => if c == ']' then Set(237, Ipv6Reference) else if c == '0' then To(209)
      else if c == '1' then To(214) else if c == '2' then To(217) else if '3' <= c <= '9' then To(220)
      else if IsHexLetter(c) then To(221) else Err
    case 209 => if c == '.' then To(118) else if c == ':' then To(213)
      else if c == ']' then Set(237, Ipv6Reference) else if IsHexDigit(c) then To(210) else Err
    case 210 => if c == ':' then To(213) else if c == ']' then Set(237, Ipv6Reference)
      else if IsHexDigit(c) then To(211) else Err
    case 211 => if c == ':' then To(213) else if c == ']' then Set(237, Ipv6Reference)
      else if IsHexDigit(c) then To(212) else Err
    case 212 => if c == ':' then To(213) else if c == ']' then Set(237, Ipv6Reference) else Err
    case 213 => if c == '0' then To(195) else if c == '1' then To(200) else if c == '2' then To(203)
      else if '3' <= c <= '9' then To(206) else if IsHexLetter(c) then To(207) else Err
    case 214 => if c == '.' then To(118) else if c == ':' then To(213)
      else if c == ']' then Set(237, Ipv6Reference) else if IsDigit(c) then To(215)
      else if IsHexLetter(c) then To(210) else Err
    case 215 => if c == '.' then To(118) else if c == ':' then To(213)
      else if c == ']' then Set(237, Ipv6Reference) else if IsDigit(c) then To(216)
      else if IsHexLetter(c) then To(211) else Err
    case 216 => if c == '.' then To(118) else if c == ':' then To(213)
      else if c == ']' then Set(237, Ipv6Reference) else if IsHexDigit(c) then To(212) else Err
    case 217 => if c == '.' then To(118) else if c == ':' then To(213)
      else if c == ']' then Set(237, Ipv6Reference) else if '0' <= c <= '4' then To(215)
      else if c == '5' then To(218) else if '6' <= c <= '9' then To(219)
      else if IsHexLetter(c) then To(210) else Err
    case 218 => if c == '.' then To(118) else if c == ':' then To(213)
      else if c == ']' then Set(237, Ipv6Reference) else if '0' <= c <= '5' then To(216)
      else if '6' <= c <= '9' then To(211) else if IsHexLetter(c) then To(211) else Err
    case 219 => if c == '.' then To(118) else if c == ':' then To(213)
      else if c == ']' then Set(237, Ipv6Reference) else if IsHexDigit(c) then To(211) else Err
    case 220 => if c == '.' then To(118) else if c == ':' then To(213)
      else if c == ']' then Set(237, Ipv6Reference) else if IsDigit(c) then To(219)
      else if IsHexLetter(c) then To(210) else Err
    case 221 => if c == ':' then To(213) else if c == ']' then Set(237, Ipv6Reference)
      else if IsHexDigit(c) then To(210) else Err
    case _ => Err
  }

  function Moves222To236(cs: int, c: char): Move {
    match cs
    case 222 => if c == ':' then To(223) else Err
    case 223 => if c == ']' then Set(237, Ipv6Reference) else if c == '0' then To(224)
      else if c == '1' then To(229) else if c == '2' then To(232) else if '3' <= c <= '9' then To(235)
      else if IsHexLetter(c) then To(236) else Err
    case 224 => if c == '.' then To(118) else if c == ':' then To(228)
      else if c == ']' then Set(237, Ipv6Reference) else if IsHexDigit(c) then To(225) else Err
    case 225 => if c == ':' then To(228) else if c == ']' then Set(237, Ipv6Reference)
      else if IsHexDigit(c) then To(226) else Err
    case 226 => if c == ':' then To(228) else if c == ']' then Set(237, Ipv6Reference)
      else if IsHexDigit(c) then To(227) else Err
    case 227 => if c == ':' then To(228) else if c == ']' then Set(237, Ipv6Reference) else Err
    case 228 => if c == '0' then To(209) else if c == '1' then To(214) else if c == '2' then To(217)
      else if '3' <= c <= '9' then To(220) else if IsHexLetter(c) then To(221) else Err
    case 229 => if c == '.' then To(118) else if c == ':' then To(228)
      else if c == ']' then Set(237, Ipv6Reference) else if IsDigit(c) then To(230)
      else if IsHexLetter(c) then To(225) else Err
    case 230 => if c == '.' then To(118) else if c == ':' then To(228)
      else if c == ']' then Set(237, Ipv6Reference) else if IsDigit(c) then To(231)
      else if IsHexLetter(c) then To(226) else Err
    case 231 => if c == '.' then To(118) else if c == ':' then To(228)
      else if c == ']' then Set(237, Ipv6Reference) else if IsHexDigit(c) then To(227) else Err
    case 232 => if c == '.' then To(118) else if c == ':' then To(228)
      else if c == ']' then Set(237, Ipv6Reference) else if '0' <= c <= '4' then To(230)
      else if c == '5' then To(233) else if '6' <= c <= '9' then To(234)
      else if IsHexLetter(c) then To(225) else Err
    case 233 => if c == '.' then To(118) else if c == ':' then To(228)
      else if c == ']' then Set(237, Ipv6Reference) else if '0' <= c <= '5' then To(231)
      else if '6' <= c <= '9' then To(226) else if IsHexLetter(c) then To(226) else Err
    case 234 => if c == '.' then To(118) else if c == ':' then To(228)
      else if c == ']' then Set(237, Ipv6Reference) else if IsHexDigit(c) then To(226) else Err
    case 235 => if c == '.' then To(118) else if c == ':' then To(228)
      else if c == ']' then Set(237, Ipv6Reference) else if IsDigit(c) then To(234)
      else if IsHexLetter(c) then To(225) else Err
    case 236 => if c == ':' then To(228) else if c == ']' then Set(237, Ipv6Reference)
      else if IsHexDigit(c) then To(225) else Err
    case _ => Err
  }

  function Moves237To241(cs: int, c: char): Move {
    match cs
    case 238 => if IsDigit(c) then Set(239, Ipv4) else Err
    case 239 => if IsDigit(c) then Set(237, Ipv4) else Err
    case 240 => if '0' <= c <= '4' then Set(239, Ipv4) else if c == '5' then Set(241, Ipv4)
      else if '6' <= c <= '9' then Set(237, Ipv4) else Err
    case 241 => if '0' <= c <= '5' then Set(237, Ipv4) else Err
    case _ => Err
  }

  function Moves242To245(cs: int, c: char): Move {
    match cs
    case 242 => if IsDigit(c) then Set(243, Ipv6) else Err
    case 243 => if IsDigit(c) then Set(237, Ipv6) else Err
    case 244 => if '0' <= c <= '4' then Set(243, Ipv6) else if c == '5' then Set(245, Ipv6)
      else if '6' <= c <= '9' then Set(237, Ipv6) else Err
    case 245 => if '0' <= c <= '5' then Set(237, Ipv6) else Err
    case _ => Err
  }

  function Moves246To249(cs: int, c: char): Move {
    match cs
    case 246 => if IsHexDigit(c) then Set(247, Ipv6) else Err
    case 247 => if IsHexDigit(c) then Set(248, Ipv6) else Err
    case 248 => if IsHexDigit(c) then Set(237, Ipv6) else Err
    case 249 => if IsHexDigit(c) then Set(246, Ipv6) else Err
    case _ => Err
  }

  function Moves250To262(cs: int, c: char): Move {
    match cs
    case 250 => if c == '0' then Set(251, Ipv6) else if c == '1' then Set(255, Ipv6)
      else if c == '2' then Set(258, Ipv6) else if '3' <= c <= '9' then Set(261, Ipv6)
      else if IsHexLetter(c) then Set(262, Ipv6) else Err
    case 251 => if c == '.' then To(46) else if c == ':' then To(71)
      else if IsHexDigit(c) then Set(252, Ipv6) else Err
    case 252 => if c == ':' then To(71) else if IsHexDigit(c) then Set(253, Ipv6) else Err
    case 253 => if c == ':' then To(71) else if IsHexDigit(c) then Set(254, Ipv6) else Err
    case 254 => if c == ':' then To(71) else Err
    case 255 => if c == '.' then To(46) else if c == ':' then To(71) else if IsDigit(c) then Set(256, Ipv6)
      else if IsHexLetter(c) then Set(252, Ipv6) else Err
    case 256 => if c == '.' then To(46) else if c == ':' then To(71) else if IsDigit(c) then Set(257, Ipv6)
      else if IsHexLetter(c) then Set(253, Ipv6) else Err
    case 257 => if c == '.' then To(46) else if c == ':' then To(71)
      else if IsHexDigit(c) then Set(254, Ipv6) else Err
    case 258 => if c == '.' then To(46) else if c == ':' then To(71) else if '0' <= c <= '4' then Set(256, Ipv6)
      else if c == '5' then Set(259, Ipv6) else if '6' <= c <= '9' then Set(260, Ipv6)
      else if IsHexLetter(c) then Set(252, Ipv6) else Err
    case 259 => if c == '.' then To(46) else if c == ':' then To(71) else if '0' <= c <= '5' then Set(257, Ipv6)
      else if '6' <= c <= '9' then Set(253, Ipv6) else if IsHexLetter(c) then Set(253, Ipv6) else Err
    case 260 => if c == '.' then To(46) else if c == ':' then To(71)
      else if IsHexDigit(c) then Set(253, Ipv6) else Err
    case 261 => if c == '.' then To(46) else if c == ':' then To(71) else if IsDigit(c) then Set(260, Ipv6)
      else if IsHexLetter(c) then Set(252, Ipv6) else Err
    case 262 => if c == ':' then To(71) else if IsHexDigit(c) then Set(252, Ipv6) else Err
    case _ => Err
  }

  function Moves263To275(cs: int, c: char): Move {
    match cs
    case 263 => if c == '0' then Set(264, Ipv6) else if c == '1' then Set(268, Ipv6)
      else if c == '2' then Set(271, Ipv6) else if '3' <= c <= '9' then Set(274, Ipv6)
      else if IsHexLetter(c) then Set(275, Ipv6) else Err
    case 264 => if c == '.' then To(46) else if c == ':' then To(72)
      else if IsHexDigit(c) then Set(265, Ipv6) else Err
    case 265 => if c == ':' then To(72) else if IsHexDigit(c) then Set(266, Ipv6) else Err
    case 266 => if c == ':' then To(72) else if IsHexDigit(c) then Set(267, Ipv6) else Err
    case 267 => if c == ':' then To(72) else Err
    case 268 => if c == '.' then To(46) else if c == ':' then To(72) else if IsDigit(c) then Set(269, Ipv6)
      else if IsHexLetter(c) then Set(265, Ipv6) else Err
    case 269 => if c == '.' then To(46) else if c == ':' then To(72) else if IsDigit(c) then Set(270, Ipv6)
      else if IsHexLetter(c) then Set(266, Ipv6) else Err
    case 270 => if c == '.' then To(46) else if c == ':' then To(72)
      else if IsHexDigit(c) then Set(267, Ipv6) else Err
    case 271 => if c == '.' then To(46) else if c == ':' then To(72) else if '0' <= c <= '4' then Set(269, Ipv6)
      else if c == '5' then Set(272, Ipv6) else if '6' <= c <= '9' then Set(273, Ipv6)
      else if IsHexLetter(c) then Set(265, Ipv6) else Err
    case 272 => if c == '.' then To(46) else if c == ':' then To(72) else if '0' <= c <= '5' then Set(270, Ipv6)
      else if '6' <= c <= '9' then Set(266, Ipv6) else if IsHexLetter(c) then Set(266, Ipv6) else Err
    case 273 => if c == '.' then To(46) else if c == ':' then To(72)
      else if IsHexDigit(c) then Set(266, Ipv6) else Err
    case 274 => if c == '.' then To(46) else if c == ':' then To(72) else if IsDigit(c) then Set(273, Ipv6)
      else if IsHexLetter(c) then Set(265, Ipv6) else Err
    case 275 => if c == ':' then To(72) else if IsHexDigit(c) then Set(265, Ipv6) else Err
    case _ => Err
  }

  function Moves276To288(cs: int, c: char): Move {
    match cs
    case 276 => if c == '0' then Set(277, Ipv6) else if c == '1' then Set(281, Ipv6)
      else if c == '2' then Set(284, Ipv6) else if '3' <= c <= '9' then Set(287, Ipv6)
      else if IsHexLetter(c) then Set(288, Ipv6) else Err
    case 277 => if c == '.' then To(46) else if c == ':' then To(73)
      else if IsHexDigit(c) then Set(278, Ipv6) else Err
    case 278 => if c == ':' then To(73) else if IsHexDigit(c) then Set(279, Ipv6) else Err
    case 279 => if c == ':' then To(73) else if IsHexDigit(c) then Set(280, Ipv6) else Err
    case 280 => if c == ':' then To(73) else Err
    case 281 => if c == '.' then To(46) else if c == ':' then To(73) else if IsDigit(c) then Set(282, Ipv6)
      else if IsHexLetter(c) then Set(278, Ipv6) else Err
    case 282 => if c == '.' then To(46) else if c == ':' then To(73) else if IsDigit(c) then Set(283, Ipv6)
      else if IsHexLetter(c) then Set(279, Ipv6) else Err
    case 283 => if c == '.' then To(46) else if c == ':' then To(73)
      else if IsHexDigit(c) then Set(280, Ipv6) else Err
    case 284 => if c == '.' then To(46) else if c == ':' then To(73) else if '0' <= c <= '4' then Set(282, Ipv6)
      else if c == '5' then Set(285, Ipv6) else if '6' <= c <= '9' then Set(286, Ipv6)
      else if IsHexLetter(c) then Set(278, Ipv6) else Err
    case 285 => if c == '.' then To(46) else if c == ':' then To(73) else if '0' <= c <= '5' then Set(283, Ipv6)
      else if '6' <= c <= '9' then Set(279, Ipv6) else if IsHexLetter(c) then Set(279, Ipv6) else Err
    case 286 => if c == '.' then To(46) else if c == ':' then To(73)
      else if IsHexDigit(c) then Set(279, Ipv6) else Err
    case 287 => if c == '.' then To(46) else if c == ':' then To(73) else if IsDigit(c) then Set(286, Ipv6)
      else if IsHexLetter(c) then Set(278, Ipv6) else Err
    case 288 => if c == ':' then To(73) else if IsHexDigit(c) then Set(278, Ipv6) else Err
    case _ => Err
  }

  function Moves289To301(cs: int, c: char): Move {
    match cs
    case 289 => if c == '0' then Set(290, Ipv6) else if c == '1' then Set(294, Ipv6)
      else if c == '2' then Set(297, Ipv6) else if '3' <= c <= '9' then Set(300, Ipv6)
      else if IsHexLetter(c) then Set(301, Ipv6) else Err
    case 290 => if c == '.' then To(46) else if c == ':' then To(74)
      else if IsHexDigit(c) then Set(291, Ipv6) else Err
    case 291 => if c == ':' then To(74) else if IsHexDigit(c) then Set(292, Ipv6) else Err
    case 292 => if c == ':' then To(74) else if IsHexDigit(c) then Set(293, Ipv6) else Err
    case 293 => if c == ':' then To(74) else Err
    case 294 => if c == '.' then To(46) else if c == ':' then To(74) else if IsDigit(c) then Set(295, Ipv6)
      else if IsHexLetter(c) then Set(291, Ipv6) else Err
    case 295 => if c == '.' then To(46) else if c == ':' then To(74) else if IsDigit(c) then Set(296, Ipv6)
      else if IsHexLetter(c) then Set(292, Ipv6) else Err
    case 296 => if c == '.' then To(46) else if c == ':' then To(74)
      else if IsHexDigit(c) then Set(293, Ipv6) else Err
    case 297 => if c == '.' then To(46) else if c == ':' then To(74) else if '0' <= c <= '4' then Set(295, Ipv6)
      else if c == '5' then Set(298, Ipv6) else if '6' <= c <= '9' then Set(299, Ipv6)
      else if IsHexLetter(c) then Set(291, Ipv6) else Err
    case 298 => if c == '.' then To(46) else if c == ':' then To(74) else if '0' <= c <= '5' then Set(296, Ipv6)
      else if '6' <= c <= '9' then Set(292, Ipv6) else if IsHexLetter(c) then Set(292, Ipv6) else Err
    case 299 => if c == '.' then To(46) else if c == ':' then To(74)
      else if IsHexDigit(c) then Set(292, Ipv6) else Err
    case 300 => if c == '.' then To(46) else if c == ':' then To(74) else if IsDigit(c) then Set(299, Ipv6)
      else if IsHexLetter(c) then Set(291, Ipv6) else Err
    case 301 => if c == ':' then To(74) else if IsHexDigit(c) then Set(291, Ipv6) else Err
    case _ => Err
  }

  function Moves302To314(cs: int, c: char): Move {
    match cs
    case 302 => if c == '0' then Set(303, Ipv6) else if c == '1' then Set(307, Ipv6)
      else if c == '2' then Set(310, Ipv6) else if '3' <= c <= '9' then Set(313, Ipv6)
      else if IsHexLetter(c) then Set(314, Ipv6) else Err
    case 303 => if c == '.' then To(46) else if c == ':' then To(75)
      else if IsHexDigit(c) then Set(304, Ipv6) else Err
    case 304 => if c == ':' then To(75) else if IsHexDigit(c) then Set(305, Ipv6) else Err
    case 305 => if c == ':' then To(75) else if IsHexDigit(c) then Set(306, Ipv6) else Err
    case 306 => if c == ':' then To(75) else Err
    case 307 => if c == '.' then To(46) else if c == ':' then To(75) else if IsDigit(c) then Set(308, Ipv6)
      else if IsHexLetter(c) then Set(304, Ipv6) else Err
    case 308 => if c == '.' then To(46) else if c == ':' then To(75) else if IsDigit(c) then Set(309, Ipv6)
      else if IsHexLetter(c) then Set(305, Ipv6) else Err
    case 309 => if c == '.' then To(46) else if c == ':' then To(75)
      else if IsHexDigit(c) then Set(306, Ipv6) else Err
    case 310 => if c == '.' then To(46) else if c == ':' then To(75) else if '0' <= c <= '4' then Set(308, Ipv6)
      else if c == '5' then Set(311, Ipv6) else if '6' <= c <= '9' then Set(312, Ipv6)
      else if IsHexLetter(c) then Set(304, Ipv6) else Err
    case 311 => if c == '.' then To(46) else if c == ':' then To(75) else if '0' <= c <= '5' then Set(309, Ipv6)
      else if '6' <= c <= '9' then Set(305, Ipv6) else if IsHexLetter(c) then Set(305, Ipv6) else Err
    case 312 => if c == '.' then To(46) else if c == ':' then To(75)
      else if IsHexDigit(c) then Set(305, Ipv6) else Err
    case 313 => if c == '.' then To(46) else if c == ':' then To(75) else if IsDigit(c) then Set(312, Ipv6)
      else if IsHexLetter(c) then Set(304, Ipv6) else Err
    case 314 => if c == ':' then To(75) else if IsHexDigit(c) then Set(304, Ipv6) else Err
    case _ => Err
  }

  function Moves315To327(cs: int, c: char): Move {
    match cs
    case 315 => if c == '0' then Set(316, Ipv6) else if c == '1' then Set(320, Ipv6)
      else if c == '2' then Set(323, Ipv6) else if '3' <= c <= '9' then Set(326, Ipv6)
      else if IsHexLetter(c) then Set(327, Ipv6) else Err
    case 316 => if c == '.' then To(46) else if c == ':' then To(84)
      else if IsHexDigit(c) then Set(317, Ipv6) else Err
    case 317 => if c == ':' then To(84) else if IsHexDigit(c) then Set(318, Ipv6) else Err
    case 318 => if c == ':' then To(84) else if IsHexDigit(c) then Set(319, Ipv6) else Err
    case 319 => if c == ':' then To(84) else Err
    case 320 => if c == '.' then To(46) else if c == ':' then To(84) else if IsDigit(c) then Set(321, Ipv6)
      else if IsHexLetter(c) then Set(317, Ipv6) else Err
    case 321 => if c == '.' then To(46) else if c == ':' then To(84) else if IsDigit(c) then Set(322, Ipv6)
      else if IsHexLetter(c) then Set(318, Ipv6) else Err
    case 322 => if c == '.' then To(46) else if c == ':' then To(84)
      else if IsHexDigit(c) then Set(319, Ipv6) else Err
    case 323 => if c == '.' then To(46) else if c == ':' then To(84) else if '0' <= c <= '4' then Set(321, Ipv6)
      else if c == '5' then Set(324, Ipv6) else if '6' <= c <= '9' then Set(325, Ipv6)
      else if IsHexLetter(c) then Set(317, Ipv6) else Err
    case 324 => if c == '.' then To(46) else if c == ':' then To(84) else if '0' <= c <= '5' then Set(322, Ipv6)
      else if '6' <= c <= '9' then Set(318, Ipv6) else if IsHexLetter(c) then Set(318, Ipv6) else Err
    case 325 => if c == '.' then To(46) else if c == ':' then To(84)
      else if IsHexDigit(c) then Set(318, Ipv6) else Err
    case 326 => if c == '.' then To(46) else if c == ':' then To(84) else if IsDigit(c) then Set(325, Ipv6)
      else if IsHexLetter(c) then Set(317, Ipv6) else Err
    case 327 => if c == ':' then To(84) else if IsHexDigit(c) then Set(317, Ipv6) else Err
    case _ => Err
  }
}
