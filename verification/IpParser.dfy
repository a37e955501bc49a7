/**
  ae_ip_parser_execute: the loop over the buffer, its exit test, and what each result
  says about the string.
 */
module IpParser {
  import opened Wrappers
  import opened IpGrammar
  import opened IpReading
  import opened IpWords
  import opened IpTable
  import opened IpAutomaton

  // -------- the automaton on a whole string --------

  // Where the loop stands after a string: in the error state, or in state `cs`.
  datatype Progress = Dead | Live(cs: int, ipType: IpType)

  function Run(s: string): Progress {
    if s == "" then
      Live(FIRST_STATE, NoIp)
    else
      match Run(s[..|s| - 1])
      case Dead => Dead
      case Live(cs, ipType) =>
        match MoveOn(cs, s[|s| - 1])
        case Err => Dead
        case To(next) => Live(next, ipType)
        case Set(next, newType) => Live(next, newType)
  }

  // The value returned: the exit test looks at how far the loop got, never at the state.
  function Classify(s: string): IpType {
    match Run(s)
    case Dead => NoIp
    case Live(_, ipType) => ipType
  }

  ghost predicate IsIPv6Prefix(s: string) {
    exists t :: IsIPv6(s + t)
  }

  ghost predicate HasIPv6Prefix(s: string) {
    exists k :: 0 <= k <= |s| && IsIPv6(s[..k])
  }

  method Execute(str: array<char>, len: nat) returns (ipType: IpType)
    requires len <= str.Length
    ensures ipType == Classify(str[..len])
    ensures ipType.Ipv4? <==> IsIPv4(str[..len])
    ensures ipType.Ipv6Reference? <==> IsIPv6Reference(str[..len])
    ensures ipType.Ipv6? <==> IsIPv6Prefix(str[..len]) && HasIPv6Prefix(str[..len])
  {
    var cs := FIRST_STATE;
    ipType := NoIp;
    var p, pe := 0, len;
    while p != pe
      invariant 0 <= p <= pe
      invariant Run(str[..p]) == Live(cs, ipType)
      decreases pe - p
    {
      assert str[..p + 1][..p] == str[..p];
      var move := MoveOn(cs, str[p]);
      if move == Err {
        cs := ERROR_STATE;
        break;
      }
      if move.Set? {
        ipType := move.ipType;
      }
      cs := move.cs;
      p := p + 1;
    }
    if len != p {
      DeadForGood(str[..p + 1], str[..len]);
      ipType := NoIp;
    }
    ResultMeans(str[..len]);
  }

  lemma {:induction false} DeadForGood(s: string, t: string)
    requires Run(s) == Dead && s <= t
    ensures Run(t) == Dead
    decreases |t|
  {
    hide MoveOn;
    if s != t {
      assert s <= t[..|t| - 1];
      DeadForGood(s, t[..|t| - 1]);
    }
  }

  // -------- the automaton follows the reader over whole strings --------

  lemma {:induction false} RunFollowsScan(s: string)
    ensures Run(s).Live? <==> Scan(s).Some?
    ensures Run(s).Live? ==> WellFormed(Scan(s).value) && Run(s).cs == StateOf(Scan(s).value)
    decreases |s|
  {
    hide MoveOn;
    if s != "" {
      var t := s[..|s| - 1];
      RunFollowsScan(t);
      if Run(t).Live? {
        MoveFollowsReader(Scan(t).value, s[|s| - 1]);
      }
    }
  }

  // The type after one more character.
  lemma RunStep(t: string, c: char)
    requires Run(t + [c]).Live?
    ensures Run(t).Live? && Scan(t).Some? && Next(Scan(t).value, c).Some? && WellFormed(Scan(t).value)
    ensures var r' := Next(Scan(t).value, c).value;
            Scan(t + [c]) == Some(r') && Run(t + [c]).ipType == if KindOf(r').NoIp? then Run(t).ipType else KindOf(r')
  {
    hide MoveOn;
    assert (t + [c])[..|t|] == t;
    RunFollowsScan(t);
    MoveFollowsReader(Scan(t).value, c);
  }

  lemma CompleteIsClassified(s: string)
    requires Scan(s).Some? && !KindOf(Scan(s).value).NoIp?
    ensures Classify(s) == KindOf(Scan(s).value)
  {
    hide MoveOn;
    RunFollowsScan(s);
    assert s != "";
    assert s == s[..|s| - 1] + [s[|s| - 1]];
    RunStep(s[..|s| - 1], s[|s| - 1]);
  }

  lemma WordsByKind(s: string)
    ensures IsIPv4(s) <==> Scan(s).Some? && KindOf(Scan(s).value).Ipv4?
    ensures IsIPv6(s) <==> Scan(s).Some? && KindOf(Scan(s).value).Ipv6?
    ensures IsIPv6Reference(s) <==> Scan(s).Some? && KindOf(Scan(s).value).Ipv6Reference?
  {
    IPv4IsRead(s);
    IPv6IsRead(s);
    ReferenceIsRead(s);
    ScanSound(s);
    if Scan(s).Some? {
      KindIsOnPath(Scan(s).value);
    }
  }

  // The language of the final states is the grammar, class by class.
  lemma FinalStatesAreTheGrammar(s: string)
    ensures Run(s).Live? && Run(s).cs >= FIRST_FINAL <==> IsIPv4(s) || IsIPv6(s) || IsIPv6Reference(s)
    ensures IsIPv4(s) ==> Classify(s).Ipv4?
    ensures IsIPv6(s) ==> Classify(s).Ipv6?
    ensures IsIPv6Reference(s) ==> Classify(s).Ipv6Reference?
  {
    hide MoveOn;
    RunFollowsScan(s);
    WordsByKind(s);
    if Scan(s).Some? {
      var r := Scan(s).value;
      FinalIsComplete(r);
      if !KindOf(r).NoIp? {
        CompleteIsClassified(s);
      }
    }
  }

  // -------- what the remembered type says --------

  // Readings after a complete IPv6 address: nothing but IPv6 can follow.
  predicate OnIPv6Path(r: Reading) {
    !r.bracket && !r.closed && (r.gap.FullGap? || (|r.left| >= 6 && Complete6(r)))
  }

  lemma PathKept(r: Reading, c: char)
    requires WellFormed(r) && Next(r, c).Some?
    ensures OnIPv6Path(r) ==> OnIPv6Path(Next(r, c).value)
    ensures Complete4(r) ==> Complete4(Next(r, c).value)
    ensures !r.closed
  {
  }

  lemma KindIsOnPath(r: Reading)
    requires WellFormed(r)
    ensures KindOf(r).Ipv6? ==> OnIPv6Path(r)
    ensures KindOf(r).Ipv6? <==> !r.bracket && Complete6(r)
    ensures KindOf(r).Ipv4? <==> Complete4(r)
    ensures OnIPv6Path(r) ==> KindOf(r).Ipv6? || KindOf(r).NoIp?
  {
  }

  lemma PrefixesOfSnoc(t: string, c: char)
    ensures HasIPv6Prefix(t + [c]) <==> HasIPv6Prefix(t) || IsIPv6(t + [c])
  {
    var s := t + [c];
    if HasIPv6Prefix(s) {
      var k :| 0 <= k <= |s| && IsIPv6(s[..k]);
      if k <= |t| {
        assert s[..k] == t[..k];
      } else {
        assert s[..k] == s;
      }
    }
    if HasIPv6Prefix(t) {
      var k :| 0 <= k <= |t| && IsIPv6(t[..k]);
      assert s[..k] == t[..k];
    }
    if IsIPv6(s) {
      assert s[..|s|] == s;
    }
  }

  // The remembered type is the last class completed, and IPv6 is never forgotten.
  ghost predicate TypeRemembers(s: string, r: Reading, ipType: IpType) {
    && (ipType.Ipv4? <==> Complete4(r))
    && (ipType.Ipv6Reference? <==> r.closed)
    && (ipType.Ipv6? <==> HasIPv6Prefix(s))
    && (ipType.Ipv6? ==> OnIPv6Path(r))
  }

  lemma TypeStep(t: string, c: char, r: Reading, ipType: IpType)
    requires Scan(t) == Some(r) && WellFormed(r) && Next(r, c).Some? && TypeRemembers(t, r, ipType)
    ensures var r' := Next(r, c).value;
            TypeRemembers(t + [c], r', if KindOf(r').NoIp? then ipType else KindOf(r'))
  {
    var r' := Next(r, c).value;
    NextWellFormed(r, c);
    PathKept(r, c);
    KindIsOnPath(r);
    KindIsOnPath(r');
    PrefixesOfSnoc(t, c);
    assert (t + [c])[..|t|] == t;
    assert Scan(t + [c]) == Some(r');
    IPv6IsRead(t + [c]);
  }

  lemma NothingRemembered()
    ensures TypeRemembers("", START, NoIp)
  {
    IPv6IsRead("");
    assert forall k | 0 <= k <= |""| :: ""[..k] == "";
  }

  lemma {:induction false} TypeIsRemembered(s: string)
    requires Run(s).Live?
    ensures Scan(s).Some? && TypeRemembers(s, Scan(s).value, Run(s).ipType)
    decreases |s|
  {
    hide MoveOn;
    if s == "" {
      NothingRemembered();
    } else {
      var t, c := s[..|s| - 1], s[|s| - 1];
      assert s == t + [c];
      RunStep(t, c);
      TypeIsRemembered(t);
      TypeStep(t, c, Scan(t).value, Run(t).ipType);
    }
  }

  // -------- every live reading of an IPv6 address can be finished --------

  // A way to finish an IPv6 address that has been begun.
  function Finish(r: Reading): string {
    if r.quad != [] then
      (if r.tok == "" then "0" else "") + (if |r.quad| == 1 then ".0.0" else if |r.quad| == 2 then ".0" else "")
    else if r.gap.FullGap? then
      if r.tok == "" && r.right != [] then "0" else ""
    else if r.gap.HalfGap? then ":"
    else if |r.left| == 7 then
      if r.tok == "" then ":" else ""
    else if r.left != [] && r.tok == "" then ":"
    else "::"
  }

  // The octets read end an IPv6 address.
  predicate IsIPv6Tail(r: Reading) {
    !r.bracket && !r.closed && (r.gap.FullGap? || |r.left| == 6)
  }

  lemma TakeOne(r: Reading, s: string, c: char, r': Reading)
    requires Scan(s) == Some(r) && Next(r, c) == Some(r')
    ensures Scan(s + [c]) == Some(r')
  {
    assert (s + [c])[..|s|] == s;
  }

  lemma FinishQuad(r: Reading, s: string)
    requires WellFormed(r) && Scan(s) == Some(r) && r.quad != [] && IsIPv6Tail(r)
    ensures Scan(s + Finish(r)).Some? && Complete6(Scan(s + Finish(r)).value) && !Scan(s + Finish(r)).value.bracket
  {
    if r.tok == "" {
      FirstZero(r, s);
      hide Scan, Next, WellFormed, Complete6;
      var r1 := r.(tok := "0");
      FinishOctets(r1, s + "0");
      assert s + "0" + FinishMore(r1) == s + Finish(r);
    } else {
      hide Scan, Next, WellFormed, Complete6;
      FinishOctets(r, s);
      assert s + FinishMore(r) == s + Finish(r);
    }
  }

  lemma FirstZero(r: Reading, s: string)
    requires WellFormed(r) && Scan(s) == Some(r) && r.quad != [] && IsIPv6Tail(r) && r.tok == ""
    ensures var r1 := r.(tok := "0");
      Scan(s + "0") == Some(r1) && WellFormed(r1) && IsIPv6Tail(r1)
  {
    var r1 := r.(tok := "0");
    assert "" + ['0'] == "0";
    assert OnHexDigit(r, '0') == Some(r1);
    assert Next(r, '0') == Some(r1);
    NextWellFormed(r, '0');
    TakeOne(r, s, '0', r1);
  }

  function FinishMore(r: Reading): string {
    if |r.quad| == 1 then ".0.0" else if |r.quad| == 2 then ".0" else ""
  }

  lemma OneMoreOctet(r: Reading, s: string)
    requires WellFormed(r) && Scan(s) == Some(r) && r.quad != [] && |r.quad| < 3 && IsIPv6Tail(r) && r.tok != ""
    ensures var r' := r.(quad := r.quad + [r.tok], tok := "0");
            WellFormed(r') && IsIPv6Tail(r') && Scan(s + ".0") == Some(r')
  {
    var r1 := r.(quad := r.quad + [r.tok], tok := "");
    TakeOne(r, s, '.', r1);
    NextWellFormed(r, '.');
    assert "" + ['0'] == "0";
    TakeOne(r1, s + ['.'], '0', r1.(tok := "0"));
    NextWellFormed(r1, '0');
    assert s + ['.'] + ['0'] == s + ".0";
  }

  lemma {:induction false} FinishOctets(r: Reading, s: string)
    requires WellFormed(r) && Scan(s) == Some(r) && r.quad != [] && IsIPv6Tail(r) && r.tok != ""
    ensures Scan(s + FinishMore(r)).Some? && Complete6(Scan(s + FinishMore(r)).value)
    ensures !Scan(s + FinishMore(r)).value.bracket
    decreases 3 - |r.quad|
  {
    if |r.quad| == 3 {
      assert s + "" == s;
    } else {
      OneMoreOctet(r, s);
      var r' := r.(quad := r.quad + [r.tok], tok := "0");
      FinishOctets(r', s + ".0");
      assert s + ".0" + FinishMore(r') == s + FinishMore(r);
    }
  }

  lemma FinishTail(r: Reading, s: string)
    requires WellFormed(r) && Scan(s) == Some(r) && !r.bracket && r.quad == [] && r.gap.FullGap?
    ensures Scan(s + Finish(r)).Some? && Complete6(Scan(s + Finish(r)).value) && !Scan(s + Finish(r)).value.bracket
  {
    if r.tok == "" && r.right != [] {
      assert "" + ['0'] == "0";
      TakeOne(r, s, '0', r.(tok := "0"));
    } else {
      assert s + "" == s;
    }
  }

  lemma FinishHead(r: Reading, s: string)
    requires WellFormed(r) && Scan(s) == Some(r) && !r.bracket && r.quad == [] && !r.gap.FullGap?
    ensures Scan(s + Finish(r)).Some? && Complete6(Scan(s + Finish(r)).value) && !Scan(s + Finish(r)).value.bracket
  {
    if r.gap.NoGap? && |r.left| == 7 && r.tok != "" {
      assert s + "" == s;
    } else {
      var r1 := OnColon(r).value;
      TakeOne(r, s, ':', r1);
      if Finish(r) == "::" {
        TakeOne(r1, s + [':'], ':', r1.(gap := FullGap));
        assert s + [':'] + [':'] == s + "::";
      }
    }
  }

  lemma LiveCanFinish(s: string)
    requires Scan(s).Some? && !Scan(s).value.bracket && !PureQuad(Scan(s).value)
    ensures IsIPv6Prefix(s)
  {
    ScanSound(s);
    var r := Scan(s).value;
    if r.quad != [] {
      FinishQuad(r, s);
    } else if r.gap.FullGap? {
      FinishTail(r, s);
    } else {
      FinishHead(r, s);
    }
    IPv6IsRead(s + Finish(r));
  }

  lemma {:induction false} ScanOfPrefix(s: string, t: string)
    requires Scan(s + t).Some?
    ensures Scan(s).Some?
    decreases |t|
  {
    if t == "" {
      assert s + t == s;
    } else {
      assert (s + t)[..|s + t| - 1] == s + t[..|t| - 1];
      ScanOfPrefix(s, t[..|t| - 1]);
    }
  }

  lemma PrefixIsLive(s: string)
    requires IsIPv6Prefix(s)
    ensures Run(s).Live?
  {
    hide MoveOn;
    var t :| IsIPv6(s + t);
    IPv6IsRead(s + t);
    ScanOfPrefix(s, t);
    RunFollowsScan(s);
  }

  // -------- the results --------

  lemma ResultMeans(s: string)
    ensures Classify(s).Ipv4? <==> IsIPv4(s)
    ensures Classify(s).Ipv6Reference? <==> IsIPv6Reference(s)
    ensures Classify(s).Ipv6? <==> IsIPv6Prefix(s) && HasIPv6Prefix(s)
  {
    hide MoveOn;
    IPv4IsRead(s);
    ReferenceIsRead(s);
    RunFollowsScan(s);
    if Run(s).Live? {
      TypeIsRemembered(s);
      if Classify(s).Ipv6? {
        LiveCanFinish(s);
      }
    } else if IsIPv6Prefix(s) {
      PrefixIsLive(s);
    }
  }

  // -------- where the exit test is too weak --------

  function Dots(s: string): nat {
    if s == "" then 0 else Dots(s[..|s| - 1]) + (if s[|s| - 1] == '.' then 1 else 0)
  }

  // No octet is missing at the end, and no group after a single colon.
  predicate EndsWell(s: string) {
    && s != ""
    && (Dots(s) == 0 || Dots(s) == 3)
    && s[|s| - 1] != '.'
    && (s[|s| - 1] == ':' ==> |s| >= 2 && s[|s| - 2] == ':')
  }

  lemma {:induction false} DotsAreOctets(s: string)
    requires Scan(s).Some?
    ensures Dots(s) == |Scan(s).value.quad|
    decreases |s|
  {
    if s != "" {
      DotsAreOctets(s[..|s| - 1]);
    }
  }

  lemma LastIsToken(s: string)
    requires Scan(s).Some? && s != ""
    ensures var r, c := Scan(s).value, s[|s| - 1];
            && (r.closed ==> c == ']')
            && (!r.closed && r.tok != "" ==> IsHexDigit(c))
            && (!r.closed && r.tok == "" && r.quad != [] ==> c == '.')
            && (!r.closed && !r.bracket && r.tok == "" && r.quad == [] ==> c == ':')
  {
  }

  // What a final colon has ended: a group, or half of a "::".
  lemma ColonAtTheEnd(r: Reading)
    requires WellFormed(r) && !r.bracket && OnColon(r).Some? && OnColon(r).value.gap.FullGap?
    ensures OnColon(r).value.right == [] <==> r.tok == ""
  {
  }

  lemma TokenBeforeColon(t: string)
    requires Scan(t).Some? && t != "" && !Scan(t).value.bracket && !Scan(t).value.closed && Scan(t).value.quad == []
    ensures Scan(t).value.tok == "" <==> t[|t| - 1] == ':'
  {
    LastIsToken(t);
  }

  lemma ColonKeepsSides(r: Reading)
    requires OnColon(r).Some?
    ensures OnColon(r).value.bracket == r.bracket && OnColon(r).value.closed == r.closed && r.quad == []
  {
  }

  lemma GapAtTheEnd(t: string)
    requires Scan(t).Some? && t != "" && OnColon(Scan(t).value).Some?
    requires var r := OnColon(Scan(t).value).value; !r.bracket && !r.closed && r.gap.FullGap?
    ensures OnColon(Scan(t).value).value.right == [] <==> t[|t| - 1] == ':'
  {
    ScanSound(t);
    ColonKeepsSides(Scan(t).value);
    ColonAtTheEnd(Scan(t).value);
    TokenBeforeColon(t);
  }

  // "ipv6" is returned for an IPv6 address, or for one that was cut off after an address:
  // the end of the string tells which.
  lemma Ipv6ResultIsExactWhen(s: string)
    requires Classify(s).Ipv6?
    ensures IsIPv6(s) <==> EndsWell(s)
    ensures IsIPv6(s) <==> Run(s).Live? && Run(s).cs >= FIRST_FINAL
  {
    hide MoveOn;
    RunFollowsScan(s);
    TypeIsRemembered(s);
    WordsByKind(s);
    FinalIsComplete(Scan(s).value);
    DotsAreOctets(s);
    CutOffAtTheEnd(s);
  }

  lemma CutOffAtTheEnd(s: string)
    requires Scan(s).Some? && WellFormed(Scan(s).value) && OnIPv6Path(Scan(s).value)
    requires Dots(s) == |Scan(s).value.quad|
    ensures KindOf(Scan(s).value).Ipv6? <==> EndsWell(s)
  {
    var r := Scan(s).value;
    assert s != "";
    KindIsOnPath(r);
    LastIsToken(s);
    if r.gap.FullGap? && r.tok == "" && r.quad == [] {
      var t := s[..|s| - 1];
      assert t != "" by {
        assert OnColon(START).value.gap.HalfGap?;
      }
      GapAtTheEnd(t);
      assert t[|t| - 1] == s[|s| - 2];
    }
  }

  lemma CutOffIsIpv6(s: string, r: Reading, k: nat, p: Reading)
    requires WellFormed(r) && Text(r) == s && !r.bracket && !PureQuad(r) && !Complete6(r)
    requires k <= |s| && WellFormed(p) && Text(p) == s[..k] && !p.bracket && Complete6(p)
    ensures Classify(s).Ipv6? && !IsIPv6(s)
  {
    hide MoveOn;
    ScanComplete(r);
    ScanComplete(p);
    IPv6IsRead(s);
    IPv6IsRead(s[..k]);
    LiveCanFinish(s);
    ResultMeans(s);
  }

  lemma MissingGroup()
    ensures Classify("1::2:").Ipv6? && !IsIPv6("1::2:")
  {
    var p := Reading(false, false, ["1"], FullGap, [], [], "");
    var r := Reading(false, false, ["1"], FullGap, ["2"], [], "");
    assert Ended(["1"], ':') == "1:" && Ended(["2"], ':') == "2:";
    assert Text(p) == "1::" && Text(r) == "1::2:";
    assert "1::2:"[..3] == "1::";
    CutOffIsIpv6("1::2:", r, 3, p);
  }

  lemma MissingOctets()
    ensures Classify("::1.2").Ipv6? && !IsIPv6("::1.2")
  {
    var p := Reading(false, false, [], FullGap, [], [], "");
    var r := Reading(false, false, [], FullGap, [], ["1"], "2");
    assert Ended(["1"], '.') == "1.";
    assert Text(p) == "::" && Text(r) == "::1.2";
    assert "::1.2"[..2] == "::";
    CutOffIsIpv6("::1.2", r, 2, p);
  }
}
