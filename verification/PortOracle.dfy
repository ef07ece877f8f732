// How the suite tells a rewritten session body from one the proxy left alone: ports are
// generated outside the range the relay uses and checked to be inside it.
module PortOracle {
  import opened Wrappers
  import opened Sdp
  import MediaPick

  const ABS_MINP := 1024
  const ABS_MAXP := 65535
  const CTL_PORTN := 22222
  const SIPPY_RTP_OUSER := "SippyRTP"

  datatype PortRange = PortRange(minp: int, maxp: int)

  // PortRange.__init__ raises for the rest.
  predicate ValidRange(r: PortRange) {
    ABS_MINP <= r.minp && r.maxp <= ABS_MAXP
  }

  predicate IsInRange(r: PortRange, port: int) {
    !(port < r.minp || port > r.maxp)
  }

  // random() is at least 0.0 and less than 1.0
  type Draw = d: real | 0.0 <= d < 1.0 witness 0.0

  // 2 * (1 + int(32765.0 * random()))
  function Candidate(d: Draw): int {
    2 * (1 + (32765.0 * d).Floor)
  }

  predicate Suitable(r: PortRange, port: int) {
    port != CTL_PORTN && ABS_MINP <= port <= ABS_MAXP && (port < r.minp || port > r.maxp)
  }

  // What a returned port is, said without the drawing.
  predicate Generated(r: PortRange, port: int) {
    port % 2 == 0 && 1024 <= port <= 65530 && port != 22222 && (port < r.minp || r.maxp < port)
  }

  // gennotinrange: keep drawing until a candidate suits.  None: the given draws ran out.
  method GenNotInRange(r: PortRange, draws: seq<Draw>) returns (port: Option<int>, rest: seq<Draw>)
    ensures port.Some? ==>
              && Generated(r, port.value) && |rest| < |draws| && rest == draws[|draws| - |rest|..]
              && port.value == Candidate(draws[|draws| - |rest| - 1])
              && forall i | 0 <= i < |draws| - |rest| - 1 :: !Suitable(r, Candidate(draws[i]))
    ensures port.None? ==> rest == [] && forall i | 0 <= i < |draws| :: !Suitable(r, Candidate(draws[i]))
  {
    var i := 0;
    while i < |draws|
      invariant 0 <= i <= |draws|
      invariant forall k | 0 <= k < i :: !Suitable(r, Candidate(draws[k]))
    {
      var portn := Candidate(draws[i]);
      CandidateBounds(draws[i]);
      i := i + 1;
      if portn == CTL_PORTN { continue; }
      if portn >= ABS_MINP && portn <= ABS_MAXP && (portn < r.minp || portn > r.maxp) {
        return Some(portn), draws[i..];
      }
    }
    return None, [];
  }

  lemma CandidateBounds(d: Draw)
    ensures Candidate(d) % 2 == 0 && 2 <= Candidate(d) <= 65530
  {
    assert 0.0 <= 32765.0 * d < 32765.0;
  }

  // Every port that Generated allows can be drawn.
  lemma DrawFor(r: PortRange, port: int) returns (d: Draw)
    requires Generated(r, port)
    ensures Candidate(d) == port && Suitable(r, port)
  {
    var k := port / 2 - 1;
    var x: real := k as real / 32765.0;
    assert x < 1.0 && 32765.0 * x == k as real;
    d := x;
  }

  // The loop can end at all exactly when the range leaves an even port free: it never does
  // for a range that covers 1024 to 65530.
  lemma CanGenerateExactly(r: PortRange)
    requires ValidRange(r)
    ensures (exists d: Draw :: Suitable(r, Candidate(d))) <==> r.minp > 1024 || r.maxp < 65530
  {
    if r.minp > 1024 {
      var d := DrawFor(r, 1024);
    } else if r.maxp < 65530 {
      var d := DrawFor(r, 65530);
    }
    forall d: Draw | Suitable(r, Candidate(d)) ensures r.minp > 1024 || r.maxp < 65530 {
      CandidateBounds(d);
    }
  }

  // For instance the range of all ports there are: it is valid, and no draw ever suits it.
  lemma WidestRange()
    ensures var r := PortRange(1024, 65535); ValidRange(r) && forall d: Draw :: !Suitable(r, Candidate(d))
  {
    CanGenerateExactly(PortRange(1024, 65535));
  }

  // ------------------------------------------------------------------ filling a body in

  // fillhostport: which section came out how.  ip is what genIP draws for each section.
  ghost predicate Filled(r: PortRange, atype: Family, ip: nat -> string, before: seq<Section>, after: seq<Section>) {
    && |after| == |before|
    && forall i | 0 <= i < |before| ::
         if IsRelayed(before[i]) then
           && Generated(r, after[i].port)
           && after[i] == before[i].(port := after[i].port, conn := Some(Connection(atype, ip(i))))
         else after[i] == before[i]
  }

  datatype FillResult = Done | NoConnection(index: nat) | OutOfDraws

  // How far the loop over the sections got.
  ghost predicate FilledUpTo(r: PortRange, atype: Family, ip: nat -> string, res: FillResult,
                             before: seq<Section>, after: seq<Section>) {
    match res
    case Done => Filled(r, atype, ip, before, after)
    case NoConnection(i) =>
      && i < |before| == |after| && IsRelayed(before[i]) && before[i].conn.None?
      && Filled(r, atype, ip, before[..i], after[..i])
      && Generated(r, after[i].port) && after[i] == before[i].(port := after[i].port)
      && after[i + 1..] == before[i + 1..]
    case OutOfDraws => |after| == |before|
  }

  lemma RestKept(was: seq<Section>, before: seq<Section>, i: nat, x: Section)
    requires i < |was| == |before| && was[i..] == before[i..]
    ensures was[i := x][..i] == was[..i] && was[i := x][i + 1..] == before[i + 1..]
  {
    assert was[i..][1..] == before[i..][1..];
  }

  lemma FilledSnoc(r: PortRange, atype: Family, ip: nat -> string, before: seq<Section>, was: seq<Section>, i: nat,
                   x: Section)
    requires i < |was| == |before| && Filled(r, atype, ip, before[..i], was[..i])
    requires if IsRelayed(before[i]) then
               Generated(r, x.port) && x == before[i].(port := x.port, conn := Some(Connection(atype, ip(i))))
             else x == before[i]
    ensures Filled(r, atype, ip, before[..i + 1], was[i := x][..i + 1])
  {
    forall k | 0 <= k < i ensures before[..i + 1][k] == before[..i][k] && was[i := x][..i + 1][k] == was[..i][k] {
    }
  }

  // the loop over the sections; ip is what genIP draws for each
  method FillSections(body: SdpBody, r: PortRange, atype: Family, ip: nat -> string, draws0: seq<Draw>)
    returns (res: FillResult, draws: seq<Draw>)
    modifies body`sections
    ensures FilledUpTo(r, atype, ip, res, old(body.sections), body.sections)
  {
    draws := draws0;
    ghost var before := body.sections;
    for i := 0 to |body.sections|
      invariant |body.sections| == |before|
      invariant Filled(r, atype, ip, before[..i], body.sections[..i]) && body.sections[i..] == before[i..]
    {
      ghost var was := body.sections;
      assert was[i] == was[i..][0] == before[i];
      var sect := body.sections[i];
      if IsRelayed(sect) {
        var port;
        port, draws := GenNotInRange(r, draws);
        if port.None? { return OutOfDraws, draws; }
        body.sections := body.sections[i := sect.(port := port.value)];
        if sect.conn.None? {
          RestKept(was, before, i, body.sections[i]);
          return NoConnection(i), draws;
        }
        body.sections := body.sections[i := sect.(port := port.value, conn := Some(Connection(atype, ip(i))))];
      }
      RestKept(was, before, i, body.sections[i]);
      FilledSnoc(r, atype, ip, before, was, i, body.sections[i]);
    }
    assert before[..|before|] == before && body.sections[..|before|] == body.sections;
    res := Done;
  }

  // newOrigin is what SdpOrigin() makes up
  method FillHostPort(body: SdpBody, r: PortRange, atype: Family, signallingOnly: bool,
                      newOrigin: OriginLine, ip: nat -> string, draws0: seq<Draw>)
    returns (res: FillResult, draws: seq<Draw>)
    modifies body
    ensures FilledUpTo(r, atype, ip, res, old(body.sections), body.sections)
    ensures body.origin == newOrigin
    ensures body.sessionName == if signallingOnly then old(body.sessionName) else "SippyRTP"
  {
    body.origin := newOrigin;
    if !signallingOnly { body.sessionName := SIPPY_RTP_OUSER; }
    res, draws := FillSections(body, r, atype, ip, draws0);
  }

  // -------------------------------------------------------------------- checking a body

  // checkIps is check_media_ips; it may hold the wildcard "*".
  datatype CheckConfig = CheckConfig(range: PortRange, atype: Family, checkIps: seq<string>)

  // Raised: an attribute error for a section without a connection line.
  datatype Verdict = AllGood | NotInRange(port: int) | NotIPv4 | NotIPv6 | Raised

  const LOOPBACK6 := {"::1", "0:0:0:0:0:0:0:1"}

  function CheckSection(c: CheckConfig, s: Section): Verdict {
    if !IsRelayed(s) then AllGood
    else if !IsInRange(c.range, s.port) then NotInRange(s.port)
    else if s.conn.None? then Raised
    else if c.atype == IP4 && "*" !in c.checkIps && (s.conn.value.atype != IP4 || s.conn.value.addr !in c.checkIps)
    then NotIPv4
    else if c.atype == IP6 && (s.conn.value.atype != IP6 || s.conn.value.addr !in LOOPBACK6) then NotIPv6
    else AllGood
  }

  // The verdict is that of the first section that is not all good.
  function Check(c: CheckConfig, ss: seq<Section>): Verdict {
    if ss == [] then AllGood
    else if CheckSection(c, ss[0]) != AllGood then CheckSection(c, ss[0])
    else Check(c, ss[1..])
  }

  lemma {:induction false} CheckPrefix(c: CheckConfig, ss: seq<Section>, n: nat)
    requires n < |ss| && forall i | 0 <= i < n :: CheckSection(c, ss[i]) == AllGood
    requires CheckSection(c, ss[n]) != AllGood
    ensures Check(c, ss) == CheckSection(c, ss[n])
  {
    if n > 0 { CheckPrefix(c, ss[1..], n - 1); }
  }

  lemma {:induction false} CheckAllGood(c: CheckConfig, ss: seq<Section>)
    ensures Check(c, ss) == AllGood <==> forall i | 0 <= i < |ss| :: CheckSection(c, ss[i]) == AllGood
  {
    if ss != [] {
      CheckAllGood(c, ss[1..]);
      assert ss == [ss[0]] + ss[1..];
    }
  }

  method CheckHostPort(c: CheckConfig, body: SdpBody) returns (v: Verdict)
    ensures v == Check(c, body.sections)
  {
    for i := 0 to |body.sections|
      invariant forall k | 0 <= k < i :: CheckSection(c, body.sections[k]) == AllGood
    {
      var sect := body.sections[i];
      if !IsRelayed(sect) { continue; }
      v := NotInRange(sect.port);
      if IsInRange(c.range, sect.port) {
        v := Raised;
        if sect.conn.Some? {
          var conn := sect.conn.value;
          if c.atype == IP4 && (conn.atype != IP4 || conn.addr !in c.checkIps) && "*" !in c.checkIps {
            v := NotIPv4;
          } else if c.atype == IP6 && (conn.atype != IP6 || !(conn.addr == "::1" || conn.addr == "0:0:0:0:0:0:0:1")) {
            v := NotIPv6;
          } else {
            continue;
          }
        }
      }
      CheckPrefix(c, body.sections, i);
      return;
    }
    CheckAllGood(c, body.sections);
    v := AllGood;
  }

  // An accepted body has every relayed section inside the range and, unless the addresses
  // are a wildcard, at an expected address -- and nothing less is accepted.
  lemma {:induction false} AcceptedExactly(c: CheckConfig, ss: seq<Section>)
    ensures Check(c, ss) == AllGood <==>
            forall i | 0 <= i < |ss| && IsRelayed(ss[i]) ::
              && c.range.minp <= ss[i].port <= c.range.maxp && ss[i].conn.Some?
              && (c.atype == IP4 ==> "*" in c.checkIps
                                     || (ss[i].conn.value.atype == IP4 && ss[i].conn.value.addr in c.checkIps))
              && (c.atype == IP6 ==> ss[i].conn.value.atype == IP6
                                     && ss[i].conn.value.addr in {"::1", "0:0:0:0:0:0:0:1"})
  {
    CheckAllGood(c, ss);
  }

  // The section a rejection is about: the first that is not all good, and what is said of it.
  ghost predicate Rejects(c: CheckConfig, ss: seq<Section>, i: nat) {
    && i < |ss| && CheckSection(c, ss[i]) != AllGood && Check(c, ss) == CheckSection(c, ss[i])
    && forall j | 0 <= j < i :: CheckSection(c, ss[j]) == AllGood
  }

  lemma {:induction false} FirstRejected(c: CheckConfig, ss: seq<Section>) returns (i: nat)
    requires Check(c, ss) != AllGood
    ensures Rejects(c, ss, i)
  {
    i := 0;
    if CheckSection(c, ss[0]) == AllGood {
      var k := FirstRejected(c, ss[1..]);
      i := k + 1;
      assert forall j | 0 < j < i :: ss[j] == ss[1..][j - 1];
    }
  }

  // A rejection says what is wrong with that section: its port first, then a missing
  // connection line, then an address that is not of the expected kind.
  lemma RejectedExactly(c: CheckConfig, ss: seq<Section>) returns (i: nat)
    requires Check(c, ss) != AllGood
    ensures Rejects(c, ss, i) && IsRelayed(ss[i])
    ensures match Check(c, ss)
            case NotInRange(port) => port == ss[i].port && !(c.range.minp <= port <= c.range.maxp)
            case Raised => c.range.minp <= ss[i].port <= c.range.maxp && ss[i].conn.None?
            case NotIPv4 => c.atype == IP4 && c.range.minp <= ss[i].port <= c.range.maxp && ss[i].conn.Some?
            case NotIPv6 => c.atype == IP6 && c.range.minp <= ss[i].port <= c.range.maxp && ss[i].conn.Some?
            case AllGood => false
  {
    i := FirstRejected(c, ss);
  }

  // Every port the relay should see is one the range does not hold.
  ghost predicate Outside(r: PortRange, ss: seq<Section>) {
    forall i | 0 <= i < |ss| && IsRelayed(ss[i]) :: Generated(r, ss[i].port)
  }

  lemma FilledIsOutside(r: PortRange, atype: Family, ip: nat -> string, before: seq<Section>, after: seq<Section>)
    requires Filled(r, atype, ip, before, after)
    ensures Outside(r, after) && forall i | 0 <= i < |before| :: IsRelayed(after[i]) <==> IsRelayed(before[i])
  {
  }

  // With RTP, the offer has its own endpoint's address written in before it is sent; that
  // port is a generated one as well.
  lemma PreparedIsOutside(r: PortRange, ss: seq<Section>, laddr: Option<string>, lport: int, proto: Family)
    requires Outside(r, ss) && Generated(r, lport)
    ensures var t := MediaPick.Apply(ss, laddr, lport, proto);
            Outside(r, t) && |t| == |ss| && forall i | 0 <= i < |ss| :: IsRelayed(t[i]) <==> IsRelayed(ss[i])
  {
    var t := MediaPick.Apply(ss, laddr, lport, proto);
    MediaPick.ApplyFrame(ss, laddr, lport, proto);
    forall i | 0 <= i < |t| && IsRelayed(t[i]) ensures Generated(r, t[i].port) {
      if i != MediaPick.ApplyIndex(ss) { assert t[i] == ss[i]; }
    }
  }

  // However it was prepared, a body nobody rewrote passes only if it has nothing to relay.
  lemma OutsideNeverPasses(c: CheckConfig, ss: seq<Section>)
    requires Outside(c.range, ss)
    ensures Check(c, ss) == AllGood <==> forall i | 0 <= i < |ss| :: !IsRelayed(ss[i])
  {
    CheckAllGood(c, ss);
    forall i | 0 <= i < |ss|
      ensures CheckSection(c, ss[i]) == AllGood <==> !IsRelayed(ss[i])
    {
    }
  }

  // A body as it was generated is accepted only if it has nothing to relay, whatever the
  // addresses allowed.
  lemma UntouchedNeverPasses(c: CheckConfig, atype: Family, ip: nat -> string,
                             before: seq<Section>, after: seq<Section>)
    requires Filled(c.range, atype, ip, before, after)
    ensures Check(c, after) == AllGood <==> forall i | 0 <= i < |before| :: !IsRelayed(before[i])
  {
    FilledIsOutside(c.range, atype, ip, before, after);
    OutsideNeverPasses(c, after);
  }

  // The same once the address of its own endpoint is in it.
  lemma PreparedNeverPasses(c: CheckConfig, atype: Family, ip: nat -> string, before: seq<Section>,
                            filled: seq<Section>, laddr: Option<string>, lport: int, proto: Family)
    requires Filled(c.range, atype, ip, before, filled) && Generated(c.range, lport)
    ensures Check(c, MediaPick.Apply(filled, laddr, lport, proto)) == AllGood
            <==> forall i | 0 <= i < |before| :: !IsRelayed(before[i])
  {
    FilledIsOutside(c.range, atype, ip, before, filled);
    PreparedIsOutside(c.range, filled, laddr, lport, proto);
    OutsideNeverPasses(c, MediaPick.Apply(filled, laddr, lport, proto));
  }

  // A proxy that leaves the port of even one relayed section alone is found out, whatever it
  // does to the rest.
  lemma PartialRewriteNeverPasses(c: CheckConfig, sent: seq<Section>, received: seq<Section>, i: nat)
    requires Outside(c.range, sent) && |received| == |sent|
    requires i < |sent| && IsRelayed(sent[i])
    requires received[i].port == sent[i].port && received[i].transport == sent[i].transport
    ensures Check(c, received) != AllGood
  {
    CheckAllGood(c, received);
    assert CheckSection(c, received[i]) == NotInRange(received[i].port);
  }
}
