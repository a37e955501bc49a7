/**
  compare_ips (ext/asyncengine/ae_ip_utils.c, lines 70 to 180): offsets, lengths and the two
  46-byte buffers as the C code uses them, and what the answer says about the two strings.
 */
module IpUtils {
  import opened Wrappers
  import opened IpGrammar
  import opened IpReading
  import opened IpWords
  import opened IpTable
  import opened IpParser
  import opened IpAddress

  // Qnil, Qtrue, Qfalse.
  datatype Answer = Nil | Yes | No

  datatype Address = V4(octets: seq<nat>) | V6(units: seq<nat>)

  const INET6_ADDRSTRLEN := 46

  // -------- lengths --------

  lemma {:induction false} EndedLength(parts: seq<string>, mark: char, n: nat)
    requires forall i | 0 <= i < |parts| :: |parts[i]| <= n
    ensures |Ended(parts, mark)| <= (n + 1) * |parts|
  {
    if parts != [] {
      EndedLength(parts[..|parts| - 1], mark, n);
      assert (n + 1) * |parts| == (n + 1) * (|parts| - 1) + (n + 1);
    }
  }

  lemma HeadLength(bracket: bool, left: seq<string>, gap: Gap)
    requires AllH16(left)
    ensures |Head(bracket, left, gap)| <= (if bracket then 1 else 0) + 5 * |left| + (if gap.NoGap? then 0 else 2)
  {
    EndedLength(left, ':', 4);
  }

  lemma TextLength(r: Reading)
    ensures |Text(r)| == |Head(r.bracket, r.left, r.gap)| + |Ended(r.right, ':')| + |Ended(r.quad, '.')|
      + |r.tok| + (if r.closed then 1 else 0)
  {
    hide Head, Ended;
  }

  // How many parts a reading can have.
  lemma ReadingParts(r: Reading)
    requires WellFormed(r)
    ensures |r.left| + |r.right| <= 7 && |r.quad| <= 3 && (r.closed ==> r.bracket)
    ensures r.quad == [] ==> |r.tok| <= 4
    ensures r.quad != [] ==> |r.tok| <= 3 && |r.left| + |r.right| <= (if r.gap.NoGap? then 6 else 5)
    ensures PureQuad(r) ==> r.left == [] && r.right == []
  {
    hide AllH16, AllOctets, Complete6;
  }

  lemma ReadingLength(r: Reading)
    requires WellFormed(r)
    ensures |Text(r)| <= if r.bracket then 47 else 45
    ensures PureQuad(r) && !r.bracket ==> |Text(r)| <= 15
  {
    TextLength(r);
    HeadLength(r.bracket, r.left, r.gap);
    EndedLength(r.right, ':', 4);
    EndedLength(r.quad, '.', 3);
    ReadingParts(r);
    hide Text, Head, Ended, WellFormed;
    var h, e, q := |Head(r.bracket, r.left, r.gap)|, |Ended(r.right, ':')|, |Ended(r.quad, '.')|;
    assert h <= (if r.bracket then 1 else 0) + 5 * |r.left| + (if r.gap.NoGap? then 0 else 2);
    assert e <= 5 * |r.right| && q <= 4 * |r.quad|;
  }

  // The longest string of each class.
  lemma ResultLength(s: string)
    ensures Classify(s).Ipv4? ==> |s| <= 15
    ensures Classify(s).Ipv6? ==> |s| <= 45
    ensures Classify(s).Ipv6Reference? ==> 2 <= |s| <= 47
  {
    RunFollowsScan(s);
    if Run(s).Live? {
      ScanSound(s);
      TypeIsRemembered(s);
      ReadingLength(Scan(s).value);
      if Classify(s).Ipv6Reference? {
        BracketText(Scan(s).value);
      }
    }
  }

  // -------- the answer as a function of the two strings --------

  // The string without its brackets, if it is a reference.
  function Stripped(s: string): string
    requires Classify(s).Ipv6Reference? ==> |s| >= 2
  {
    if Classify(s).Ipv6Reference? then s[1..|s| - 1] else s
  }

  function AddressOf(s: string): Option<Address> {
    ResultLength(s);
    var t := Stripped(s);
    match Classify(s)
    case NoIp => None
    case Ipv4 => if Pton4(t).Some? then Some(V4(Pton4(t).value)) else None
    case _ => if Pton6(t).Some? then Some(V6(Pton6(t).value)) else None
  }

  predicate IsReference(s: string) {
    Classify(s).Ipv6Reference?
  }

  function Compare(a: string, b: string, allowReference: bool): Answer {
    if Classify(a).NoIp? || Classify(b).NoIp? then Nil
    else if !allowReference && IsReference(a) != IsReference(b) then No
    else if AddressOf(a).Some? && AddressOf(a) == AddressOf(b) then Yes
    else No
  }

  ghost predicate IsIpWord(s: string) {
    IsIPv4(s) || IsIPv6(s) || IsIPv6Reference(s)
  }

  // Stripping a reference leaves a true IPv6 address; only words of the grammar have one.
  lemma AddressesAreWords(s: string)
    ensures AddressOf(s).Some? <==> IsIpWord(s)
    ensures IsReference(s) ==> |s| >= 2 && IsIPv6(s[1..|s| - 1]) && AddressOf(s) == AddressOf(s[1..|s| - 1])
    ensures IsIPv4(s) ==> AddressOf(s).value.V4?
    ensures IsIPv6(s) || IsIPv6Reference(s) ==> AddressOf(s).value.V6?
  {
    ResultLength(s);
    ResultMeans(s);
    FinalStatesAreTheGrammar(s);
    PtonAcceptsTheGrammar(Stripped(s));
    if IsReference(s) {
      FinalStatesAreTheGrammar(s[1..|s| - 1]);
    }
  }

  lemma CompareIsSymmetric(a: string, b: string, allowReference: bool)
    ensures Compare(a, b, allowReference) == Compare(b, a, allowReference)
  {
  }

  lemma CompareIsReflexive(a: string, allowReference: bool)
    ensures Compare(a, a, allowReference).Yes? <==> IsIpWord(a)
  {
    AddressesAreWords(a);
    FinalStatesAreTheGrammar(a);
  }

  lemma CompareIsTransitive(a: string, b: string, c: string, allowReference: bool)
    requires Compare(a, b, allowReference).Yes? && Compare(b, c, allowReference).Yes?
    ensures Compare(a, c, allowReference).Yes?
  {
  }

  lemma WordFacts(s: string)
    ensures AddressOf(s).Some? <==> IsIpWord(s)
    ensures IsReference(s) <==> IsIPv6Reference(s)
    ensures Classify(s).NoIp? ==> !IsIpWord(s)
  {
    AddressesAreWords(s);
    FinalStatesAreTheGrammar(s);
    ResultMeans(s);
    hide Run, Scan, Classify, AddressOf, IsIPv4, IsIPv6, IsIPv6Reference, IsIPv6Prefix, HasIPv6Prefix;
  }

  // What each answer means in terms of the grammar and of the addresses.
  lemma CompareMeans(a: string, b: string, allowReference: bool)
    ensures Compare(a, b, allowReference).Nil? <==> Classify(a).NoIp? || Classify(b).NoIp?
    ensures Compare(a, b, allowReference).Yes? <==>
              && IsIpWord(a) && IsIpWord(b) && AddressOf(a) == AddressOf(b)
              && (allowReference || (IsIPv6Reference(a) <==> IsIPv6Reference(b)))
    ensures Compare(a, b, false).Yes? ==> Compare(a, b, true).Yes?
  {
    WordFacts(a);
    WordFacts(b);
    hide Run, Scan, Classify, AddressOf, IsReference, IsIpWord, IsIPv6Reference;
  }

  // The documentation of compare_ips promises nil for every string that is no address. That
  // fails for a string that was cut off after an IPv6 address, and for no other: such a
  // string is answered false, whatever classified string it is compared with.
  lemma NotNilExactlyWhenCutOff(a: string, b: string, allowReference: bool)
    ensures !IsIpWord(a) && !Compare(a, b, allowReference).Nil? <==>
      Classify(a).Ipv6? && !EndsWell(a) && !Classify(b).NoIp?
    ensures !IsIpWord(a) ==> !Compare(a, b, allowReference).Yes?
  {
    hide Run, Scan, AddressOf, IsReference, IsIPv4, IsIPv6, IsIPv6Reference, IsIPv6Prefix, HasIPv6Prefix, EndsWell;
    CompareMeans(a, b, allowReference);
    ResultMeans(a);
    WordFacts(a);
    FinalStatesAreTheGrammar(a);
    if Classify(a).Ipv6? {
      Ipv6ResultIsExactWhen(a);
    }
  }

  // One of them, compared with itself.
  lemma MissingGroupIsNotNil(allowReference: bool)
    ensures Compare("1::2:", "1::2:", allowReference) == No && !IsIpWord("1::2:")
  {
    hide Run, Scan, Classify, Compare, AddressOf, IsReference;
    hide IsIPv4, IsIPv6, IsIPv6Reference, IsIPv6Prefix, HasIPv6Prefix;
    MissingGroup();
    ResultMeans("1::2:");
    FinalStatesAreTheGrammar("1::2:");
    CompareMeans("1::2:", "1::2:", allowReference);
  }

  // An IPv6 address and its own reference differ by the flag alone.
  lemma ReferenceOfAWord(s: string, allowReference: bool)
    requires IsIPv6(s)
    ensures IsIPv6Reference("[" + s + "]")
    ensures Compare(s, "[" + s + "]", allowReference) == if allowReference then Yes else No
  {
    var t := "[" + s + "]";
    assert t[1..|t| - 1] == s;
    FinalStatesAreTheGrammar(s);
    FinalStatesAreTheGrammar(t);
    AddressesAreWords(s);
    AddressesAreWords(t);
  }

  // -------- C strings --------

  // The characters before the first NUL.
  function CString(b: seq<char>): string {
    if b == [] || b[0] == '\0' then "" else [b[0]] + CString(b[1..])
  }

  lemma {:induction false} CStringOf(s: string, rest: seq<char>)
    requires '\0' !in s
    ensures CString(s + ['\0'] + rest) == s
  {
    if s == "" {
      assert (s + ['\0'] + rest)[0] == '\0';
    } else {
      assert (s + ['\0'] + rest)[1..] == s[1..] + ['\0'] + rest;
      CStringOf(s[1..], rest);
      assert (s + ['\0'] + rest)[0] == s[0];
    }
  }

  lemma BufferHolds(buf: seq<char>, s: string)
    requires '\0' !in s && |s| < |buf| && buf[..|s| + 1] == s + ['\0']
    ensures CString(buf) == s
  {
    assert buf == s + ['\0'] + buf[|s| + 1..];
    CStringOf(s, buf[|s| + 1..]);
  }

  lemma {:induction false} NoNulIsRead(s: string)
    requires Scan(s).Some?
    ensures '\0' !in s
    decreases |s|
  {
    if s != "" {
      NoNulIsRead(s[..|s| - 1]);
      assert s == s[..|s| - 1] + [s[|s| - 1]];
    }
  }

  lemma NoNulIsClassified(s: string)
    requires !Classify(s).NoIp?
    ensures '\0' !in s && (Classify(s).Ipv6Reference? ==> |s| >= 2 && '\0' !in s[1..|s| - 1])
  {
    RunFollowsScan(s);
    NoNulIsRead(s);
    ResultLength(s);
  }

  // inet_pton as it is called here, on a NUL-terminated copy in a buffer.
  method InetPton4(buf: array<char>) returns (addr: Option<seq<nat>>)
    ensures addr == Pton4(CString(buf[..]))
  {
    addr := Pton4(CString(buf[..]));
  }

  method InetPton6(buf: array<char>) returns (addr: Option<seq<nat>>)
    ensures addr == Pton6(CString(buf[..]))
  {
    addr := Pton6(CString(buf[..]));
  }

  // memcpy of `len` characters from `src` at `off`, then the terminator.
  method CopyTerminated(dst: array<char>, src: array<char>, off: nat, len: nat)
    requires off + len <= src.Length && len < dst.Length && dst != src
    modifies dst
    ensures dst[..len + 1] == src[off..off + len] + ['\0']
  {
    for i := 0 to len
      invariant dst[..i] == src[off..off + i]
    {
      dst[i] := src[off + i];
    }
    dst[len] := '\0';
  }

  // -------- compare_pure_ips --------

  function ComparePure(s1: string, type1: IpType, s2: string, type2: IpType): bool {
    && type1 == type2
    && match type1
       case Ipv4 => Pton4(s1).Some? && Pton4(s1) == Pton4(s2)
       case Ipv6 => Pton6(s1).Some? && Pton6(s1) == Pton6(s2)
       case _ => false
  }

  method ComparePureIps(ip1: array<char>, off1: nat, len1: nat, type1: IpType,
                        ip2: array<char>, off2: nat, len2: nat, type2: IpType) returns (same: bool)
    requires off1 + len1 <= ip1.Length && off2 + len2 <= ip2.Length
    requires type1 == type2 ==> len1 < INET6_ADDRSTRLEN && len2 < INET6_ADDRSTRLEN
    requires '\0' !in ip1[off1..off1 + len1] && '\0' !in ip2[off2..off2 + len2]
    ensures same == ComparePure(ip1[off1..off1 + len1], type1, ip2[off2..off2 + len2], type2)
  {
    if type1 != type2 {
      return false;
    }
    var buf1, buf2 := new char[INET6_ADDRSTRLEN], new char[INET6_ADDRSTRLEN];
    CopyTerminated(buf1, ip1, off1, len1);
    CopyTerminated(buf2, ip2, off2, len2);
    BufferHolds(buf1[..], ip1[off1..off1 + len1]);
    BufferHolds(buf2[..], ip2[off2..off2 + len2]);
    hide Pton4, Pton6, CString;
    match type1 {
      case Ipv4 =>
        var addr1 := InetPton4(buf1);
        if addr1 == None { return false; }
        var addr2 := InetPton4(buf2);
        if addr2 == None { return false; }
        same := addr1 == addr2;
      case Ipv6 =>
        var addr1 := InetPton6(buf1);
        if addr1 == None { return false; }
        var addr2 := InetPton6(buf2);
        if addr2 == None { return false; }
        same := addr1 == addr2;
      case _ =>
        same := false;
    }
  }

  // -------- compare_ips --------

  // The type compare_pure_ips is given: a stripped reference counts as IPv6.
  function PureType(s: string): IpType {
    if Classify(s).Ipv6Reference? then Ipv6 else Classify(s)
  }

  lemma ComparePureIsAddress(a: string, b: string)
    requires !Classify(a).NoIp? && !Classify(b).NoIp?
    ensures Classify(a).Ipv6Reference? ==> |a| >= 2
    ensures Classify(b).Ipv6Reference? ==> |b| >= 2
    ensures ComparePure(Stripped(a), PureType(a), Stripped(b), PureType(b))
            <==> AddressOf(a).Some? && AddressOf(a) == AddressOf(b)
  {
    ResultLength(a);
    ResultLength(b);
  }

  // The steps of compare_ips, in its own order.
  lemma CompareInSteps(a: string, b: string, allowReference: bool)
    ensures !Classify(a).NoIp? && !Classify(b).NoIp? ==>
      && (Classify(a).Ipv6Reference? ==> |a| >= 2) && (Classify(b).Ipv6Reference? ==> |b| >= 2)
      && Compare(a, b, allowReference) ==
         if Classify(a).Ipv6Reference? != Classify(b).Ipv6Reference? && !allowReference then No
         else if ComparePure(Stripped(a), PureType(a), Stripped(b), PureType(b)) then Yes
         else No
    ensures Classify(a).NoIp? || Classify(b).NoIp? ==> Compare(a, b, allowReference) == Nil
  {
    if !Classify(a).NoIp? && !Classify(b).NoIp? {
      ComparePureIsAddress(a, b);
    }
    hide Run, Scan, Classify, AddressOf, ComparePure, Stripped, PureType;
  }

  // Either of the two switches on the type of a string: a reference loses its brackets.
  method StripReference(str: array<char>) returns (ipType: IpType, off: nat, len: nat, found: nat)
    ensures ipType == PureType(str[..]) && off + len <= str.Length
    ensures !ipType.NoIp? ==>
      && (Classify(str[..]).Ipv6Reference? ==> str.Length >= 2)
      && str[off..off + len] == Stripped(str[..]) && len <= 45 && '\0' !in str[off..off + len]
    ensures found == if Classify(str[..]).Ipv6Reference? then 1 else 0
  {
    ghost var s := str[..];
    ResultLength(s);
    hide Run, Scan, Classify, IsIPv4, IsIPv6, IsIPv6Reference, IsIPv6Prefix, HasIPv6Prefix;
    off, len, found := 0, str.Length, 0;
    assert str[..len] == s;
    ipType := Execute(str, len);
    if !ipType.NoIp? {
      NoNulIsClassified(s);
    }
    match ipType {
      case Ipv6Reference =>
        found := found + 1;
        off, len := off + 1, len - 2;
        ipType := Ipv6;
      case _ =>
    }
  }

  method CompareIps(str1: array<char>, str2: array<char>, allowReference: bool) returns (answer: Answer)
    ensures answer == Compare(str1[..], str2[..], allowReference)
  {
    CompareInSteps(str1[..], str2[..], allowReference);
    hide Run, Scan, Classify, Compare, ComparePure, AddressOf, Stripped;
    var referencesFound := 0;
    var type1, off1, len1, found1 := StripReference(str1);
    if type1.NoIp? {
      return Nil;
    }
    referencesFound := referencesFound + found1;
    var type2, off2, len2, found2 := StripReference(str2);
    if type2.NoIp? {
      return Nil;
    }
    referencesFound := referencesFound + found2;
    if referencesFound == 1 && !allowReference {
      return No;
    }
    var same := ComparePureIps(str1, off1, len1, type1, str2, off2, len2, type2);
    return if same then Yes else No;
  }
}
