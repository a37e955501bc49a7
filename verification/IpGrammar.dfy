/**
  The rules of ext/asyncengine/ip_parser.rl, one predicate a rule: the IPv4address
  and IPv6address productions of section 3.2.2 of RFC 3986 and the bracketed form.
  Strings are byte strings; a `char` stands for one byte of the C buffer.
 */
module IpGrammar {

  predicate IsDigit(c: char) {
    '0' <= c <= '9'
  }

  predicate IsHexDigit(c: char) {
    IsDigit(c) || 'A' <= c <= 'F' || 'a' <= c <= 'f'
  }

  predicate IsDecOctet(s: string) {
    || (|s| == 1 && IsDigit(s[0]))
    || (|s| == 2 && '1' <= s[0] <= '9' && IsDigit(s[1]))
    || (|s| == 3 && s[0] == '1' && IsDigit(s[1]) && IsDigit(s[2]))
    || (|s| == 3 && s[0] == '2' && '0' <= s[1] <= '4' && IsDigit(s[2]))
    || (|s| == 3 && s[0] == '2' && s[1] == '5' && '0' <= s[2] <= '5')
  }

  ghost predicate IsIPv4(s: string) {
    exists a, b, c, d ::
      && IsDecOctet(a) && IsDecOctet(b) && IsDecOctet(c) && IsDecOctet(d)
      && s == a + "." + b + "." + c + "." + d
  }

  predicate IsH16(s: string) {
    1 <= |s| <= 4 && forall i | 0 <= i < |s| :: IsHexDigit(s[i])
  }

  ghost predicate IsLs32(s: string) {
    || (exists a, b :: IsH16(a) && IsH16(b) && s == a + ":" + b)
    || IsIPv4(s)
  }

  // ( h16 ":" ){n}
  ghost predicate IsH16Groups(n: nat, s: string) {
    if n == 0 then
      s == ""
    else
      exists t, h :: IsH16Groups(n - 1, t) && IsH16(h) && s == t + h + ":"
  }

  // ( ( h16 ":" ){,k} h16 )?
  ghost predicate IsLeftSide(k: nat, s: string) {
    || s == ""
    || exists n: nat, g, h :: n <= k && IsH16Groups(n, g) && IsH16(h) && s == g + h
  }

  // left "::" ( h16 ":" ){m} ls32, with `left` of at most k + 1 groups
  ghost predicate IsGapLs32(k: nat, m: nat, s: string) {
    exists left, g, l ::
      IsLeftSide(k, left) && IsH16Groups(m, g) && IsLs32(l) && s == left + "::" + g + l
  }

  // The nine alternatives, in the order of the rule.
  ghost predicate IsIPv6(s: string) {
    || (exists g, l :: IsH16Groups(6, g) && IsLs32(l) && s == g + l)
    || (exists g, l :: IsH16Groups(5, g) && IsLs32(l) && s == "::" + g + l)
    || IsGapLs32(0, 4, s)
    || IsGapLs32(1, 3, s)
    || IsGapLs32(2, 2, s)
    || IsGapLs32(3, 1, s)
    || IsGapLs32(4, 0, s)
    || (exists left, h :: IsLeftSide(5, left) && IsH16(h) && s == left + "::" + h)
    || (exists left :: IsLeftSide(6, left) && s == left + "::")
  }

  ghost predicate IsIPv6Reference(s: string) {
    |s| >= 2 && s[0] == '[' && s[|s| - 1] == ']' && IsIPv6(s[1..|s| - 1])
  }
}
