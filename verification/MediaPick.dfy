// Which section of a session body the RTP endpoint uses, and how its own address is put in.
module MediaPick {
  import opened Wrappers
  import opened Sdp

  datatype Codec = G711 | G722

  // Raised: the attribute error for a section without a connection line.
  datatype Picked = Nothing | Raised | Media(addr: string, port: int, codec: Codec, ptime: int, proto: Family)

  predicate Offers(s: Section) {
    0 in s.formats || 9 in s.formats
  }

  function CodecOf(s: Section): Codec {
    if 0 in s.formats then G711 else G722
  }

  predicate Decides(a: Attribute) {
    a.name == "ptime" && a.value.Some?
  }

  // int(value), with None for ValueError
  type ParseInt = string -> Option<int>

  // The first ptime attribute that has a value decides, even if that value is no number.
  function Ptime(parse: ParseInt, attrs: seq<Attribute>): (ptime: int)
    ensures ptime >= 10
  {
    if attrs == [] then 20
    else if !Decides(attrs[0]) then Ptime(parse, attrs[1..])
    else match parse(attrs[0].value.value)
      case None => 20
      case Some(n) => if n > 10 then n else 10
  }

  // The section that is picked, or |ss|.
  function PickIndex(ss: seq<Section>): (i: nat)
    ensures i <= |ss|
  {
    if ss == [] || (IsRtpAudio(ss[0]) && Offers(ss[0])) then 0 else 1 + PickIndex(ss[1..])
  }

  // The section that is rewritten, or |ss|.
  function ApplyIndex(ss: seq<Section>): (i: nat)
    ensures i <= |ss|
  {
    if ss == [] || IsRtpAudio(ss[0]) then 0 else 1 + ApplyIndex(ss[1..])
  }

  function MediaOf(parse: ParseInt, s: Section): Picked {
    if s.conn.None? then Raised
    else Media(s.conn.value.addr, s.port, CodecOf(s), Ptime(parse, s.attrs), s.conn.value.atype)
  }

  function Pick(parse: ParseInt, ss: seq<Section>): Picked {
    var i := PickIndex(ss);
    if i == |ss| then Nothing else MediaOf(parse, ss[i])
  }

  function Rewritten(s: Section, laddr: Option<string>, lport: int, proto: Family): Section {
    if laddr.Some? && s.conn.Some? then s.(port := lport, conn := Some(Connection(proto, laddr.value)))
    else s.(port := lport)
  }

  function Apply(ss: seq<Section>, laddr: Option<string>, lport: int, proto: Family): seq<Section> {
    var i := ApplyIndex(ss);
    if i == |ss| then ss else ss[i := Rewritten(ss[i], laddr, lport, proto)]
  }

  lemma {:induction false} PickIndexFirst(ss: seq<Section>, i: nat)
    requires i <= |ss| && (i < |ss| ==> IsRtpAudio(ss[i]) && Offers(ss[i]))
    requires forall k | 0 <= k < i :: !(IsRtpAudio(ss[k]) && Offers(ss[k]))
    ensures PickIndex(ss) == i
  {
    if i > 0 { PickIndexFirst(ss[1..], i - 1); }
  }

  lemma {:induction false} ApplyIndexFirst(ss: seq<Section>, i: nat)
    requires i <= |ss| && (i < |ss| ==> IsRtpAudio(ss[i]))
    requires forall k | 0 <= k < i :: !IsRtpAudio(ss[k])
    ensures ApplyIndex(ss) == i
  {
    if i > 0 { ApplyIndexFirst(ss[1..], i - 1); }
  }

  lemma {:induction false} IndexMeaning(ss: seq<Section>)
    ensures forall k | 0 <= k < ApplyIndex(ss) :: !IsRtpAudio(ss[k])
    ensures ApplyIndex(ss) < |ss| ==> IsRtpAudio(ss[ApplyIndex(ss)])
    ensures forall k | 0 <= k < PickIndex(ss) :: !(IsRtpAudio(ss[k]) && Offers(ss[k]))
    ensures PickIndex(ss) < |ss| ==> IsRtpAudio(ss[PickIndex(ss)]) && Offers(ss[PickIndex(ss)])
  {
    if ss != [] {
      IndexMeaning(ss[1..]);
      assert forall k | 0 < k < |ss| :: ss[k] == ss[1..][k - 1];
    }
  }

  // The attribute that decides the packet time, if there is one: the first ptime with a value.
  ghost predicate PtimeAt(attrs: seq<Attribute>, j: nat) {
    && j < |attrs| && attrs[j].name == "ptime" && attrs[j].value.Some?
    && forall k | 0 <= k < j :: attrs[k].name != "ptime" || attrs[k].value.None?
  }

  lemma {:induction false} PtimeExactly(parse: ParseInt, attrs: seq<Attribute>)
    ensures (forall k | 0 <= k < |attrs| :: attrs[k].name != "ptime" || attrs[k].value.None?) ==>
              Ptime(parse, attrs) == 20
    ensures forall j: nat | PtimeAt(attrs, j) ::
              var n := parse(attrs[j].value.value);
              Ptime(parse, attrs) == if n.None? then 20 else if n.value < 10 then 10 else n.value
  {
    if attrs != [] {
      PtimeExactly(parse, attrs[1..]);
      assert forall k | 0 < k < |attrs| :: attrs[k] == attrs[1..][k - 1];
      forall j: nat | PtimeAt(attrs, j) ensures j == 0 || PtimeAt(attrs[1..], j - 1) {
      }
    }
  }

  // What is picked: from the first audio section that offers payload 0 or 9, its address and
  // port, G.711 if it offers 0 and G.722 if it offers 9 only.
  lemma PickExactly(parse: ParseInt, ss: seq<Section>)
    ensures var i := PickIndex(ss);
            && (forall k | 0 <= k < i :: !(IsRtpAudio(ss[k]) && (0 in ss[k].formats || 9 in ss[k].formats)))
            && (i == |ss| <==> Pick(parse, ss) == Nothing)
            && (i < |ss| ==>
                  && IsRtpAudio(ss[i])
                  && (if 0 in ss[i].formats then CodecOf(ss[i]) == G711
                      else 9 in ss[i].formats && CodecOf(ss[i]) == G722)
                  && Pick(parse, ss) ==
                     match ss[i].conn
                     case None => Raised
                     case Some(c) => Media(c.addr, ss[i].port, CodecOf(ss[i]), Ptime(parse, ss[i].attrs), c.atype))
  {
    IndexMeaning(ss);
  }

  // What the rewrite leaves: the first audio section has the new port and, when it has a
  // connection line and there is an address to put in, that address and family.
  lemma ApplyExactly(ss: seq<Section>, laddr: Option<string>, lport: int, proto: Family)
    ensures var i, t := ApplyIndex(ss), Apply(ss, laddr, lport, proto);
            && (forall k | 0 <= k < i :: !IsRtpAudio(ss[k]))
            && (i < |ss| ==>
                  && IsRtpAudio(ss[i]) && |t| == |ss| && t[i].port == lport
                  && t[i].conn == if ss[i].conn.None? || laddr.None? then ss[i].conn
                                  else Some(Connection(proto, laddr.value)))
  {
    IndexMeaning(ss);
  }

  // Rewriting moves neither choice.
  lemma {:induction false} ApplyKeepsIndices(ss: seq<Section>, laddr: Option<string>, lport: int, proto: Family)
    ensures var t := Apply(ss, laddr, lport, proto);
            |t| == |ss| && ApplyIndex(t) == ApplyIndex(ss) && PickIndex(t) == PickIndex(ss)
  {
    var t := Apply(ss, laddr, lport, proto);
    IndexMeaning(ss);
    ApplyFrame(ss, laddr, lport, proto);
    PickIndexFirst(t, PickIndex(ss));
    ApplyIndexFirst(t, ApplyIndex(ss));
  }

  // Only the rewritten section changes, and in it only the port and the connection line.
  lemma {:induction false} ApplyFrame(ss: seq<Section>, laddr: Option<string>, lport: int, proto: Family)
    ensures var t := Apply(ss, laddr, lport, proto);
            && |t| == |ss|
            && (forall k | 0 <= k < |ss| && k != ApplyIndex(ss) :: t[k] == ss[k])
            && (forall k | 0 <= k < |ss| :: t[k] == ss[k].(port := t[k].port, conn := t[k].conn))
            && (forall k | 0 <= k < |ss| :: t[k].conn.Some? <==> ss[k].conn.Some?)
  {
  }

  // The section picked is the section rewritten exactly when the first audio section over
  // udp or rtp/avp offers payload 0 or 9 (or there is no such section at all).
  lemma {:induction false} PickedIsRewrittenExactly(ss: seq<Section>)
    ensures PickIndex(ss) == ApplyIndex(ss) <==> ApplyIndex(ss) == |ss| || Offers(ss[ApplyIndex(ss)])
  {
    IndexMeaning(ss);
    if ApplyIndex(ss) == |ss| || Offers(ss[ApplyIndex(ss)]) {
      PickIndexFirst(ss, ApplyIndex(ss));
    }
  }

  // Round trip: what was put in is what is picked, with codec and packet time as before.
  lemma {:induction false} RewriteRoundTrip(parse: ParseInt, ss: seq<Section>, laddr: string, lport: int, proto: Family)
    requires var i := ApplyIndex(ss); i < |ss| && Offers(ss[i]) && ss[i].conn.Some?
    ensures Pick(parse, ss).Media?
    ensures Pick(parse, Apply(ss, Some(laddr), lport, proto)) ==
            Pick(parse, ss).(addr := laddr, port := lport, proto := proto)
    ensures Pick(parse, ss).ptime >= 10
  {
    PickedIsRewrittenExactly(ss);
    ApplyKeepsIndices(ss, Some(laddr), lport, proto);
  }

  // When the first such section offers neither payload, the endpoint goes on using a section
  // the rewrite did not touch.
  lemma {:induction false} RewriteMissed(parse: ParseInt, ss: seq<Section>, laddr: Option<string>, lport: int,
                                         proto: Family)
    requires var i := ApplyIndex(ss); i < |ss| && !Offers(ss[i])
    ensures Pick(parse, Apply(ss, laddr, lport, proto)) == Pick(parse, ss)
  {
    PickedIsRewrittenExactly(ss);
    ApplyKeepsIndices(ss, laddr, lport, proto);
    ApplyFrame(ss, laddr, lport, proto);
  }

  // Both halves, for a body the endpoint has found its media in: after the rewrite, the other
  // side picks the local address if the first such section offers a known payload, and
  // otherwise what it would have picked before.
  lemma PeerPicks(parse: ParseInt, ss: seq<Section>, laddr: string, lport: int, proto: Family)
    requires Pick(parse, ss).Media?
    ensures ApplyIndex(ss) < |ss|
    ensures Pick(parse, Apply(ss, Some(laddr), lport, proto)) ==
            if Offers(ss[ApplyIndex(ss)]) then Pick(parse, ss).(addr := laddr, port := lport, proto := proto)
            else Pick(parse, ss)
  {
    IndexMeaning(ss);
    PickedIsRewrittenExactly(ss);
    if Offers(ss[ApplyIndex(ss)]) {
      RewriteRoundTrip(parse, ss, laddr, lport, proto);
    } else {
      RewriteMissed(parse, ss, Some(laddr), lport, proto);
    }
  }

  // A concrete body of the second kind: payload 18 in the first audio section, 0 in the next.
  lemma MissedExample(parse: ParseInt) returns (ss: seq<Section>)
    ensures PickIndex(ss) == 1 && ApplyIndex(ss) == 0
    ensures Pick(parse, ss) == Media("192.0.2.2", 20002, G711, 20, IP4)
    ensures Pick(parse, Apply(ss, Some("192.0.2.9"), 30000, IP4)) == Pick(parse, ss)
  {
    ss := [Section("audio", "RTP/AVP", 20000, [18], Some(Connection(IP4, "192.0.2.1")), []),
           Section("audio", "RTP/AVP", 20002, [0], Some(Connection(IP4, "192.0.2.2")), [])];
    assert Lower("audio") == "audio" && Lower("RTP/AVP") == "rtp/avp";
    ApplyIndexFirst(ss, 0);
    PickIndexFirst(ss, 1);
    PeerPicks(parse, ss, "192.0.2.9", 30000, IP4);
  }

  // ---------------------------------------------------------------- the programs

  lemma {:induction false} PtimeSkip(parse: ParseInt, attrs: seq<Attribute>, n: nat)
    requires n <= |attrs| && forall k | 0 <= k < n :: !Decides(attrs[k])
    ensures Ptime(parse, attrs) == Ptime(parse, attrs[n..])
  {
    if n > 0 { PtimeSkip(parse, attrs[1..], n - 1); }
  }

  method FindPtime(parse: ParseInt, attrs: seq<Attribute>) returns (ptime: int)
    ensures ptime == Ptime(parse, attrs)
  {
    ptime := 20;
    for i := 0 to |attrs|
      invariant ptime == 20 && forall k | 0 <= k < i :: !Decides(attrs[k])
    {
      var ah := attrs[i];
      if ah.name != "ptime" || ah.value.None? { continue; }
      PtimeSkip(parse, attrs, i);
      var n := parse(ah.value.value);
      if n.Some? { ptime := if n.value > 10 then n.value else 10; }
      return;
    }
    PtimeSkip(parse, attrs, |attrs|);
  }

  // _rtp_pick_media
  method PickMedia(parse: ParseInt, body: SdpBody) returns (r: Picked)
    ensures r == Pick(parse, body.sections)
  {
    var ss := body.sections;
    for i := 0 to |ss|
      invariant forall k | 0 <= k < i :: !(IsRtpAudio(ss[k]) && Offers(ss[k]))
    {
      var sect := ss[i];
      if Lower(sect.stype) != "audio" { continue; }
      if Lower(sect.transport) !in {"udp", "rtp/avp"} { continue; }
      var codec;
      if 0 in sect.formats {
        codec := G711;
      } else if 9 in sect.formats {
        codec := G722;
      } else {
        continue;
      }
      PickIndexFirst(ss, i);
      var ptime := FindPtime(parse, sect.attrs);
      if sect.conn.None? { return Raised; }
      return Media(sect.conn.value.addr, sect.port, codec, ptime, sect.conn.value.atype);
    }
    PickIndexFirst(ss, |ss|);
    return Nothing;
  }

  // _rtp_apply_local_media
  method ApplyLocalMedia(body: SdpBody, laddr: Option<string>, lport: int, proto: Family)
    modifies body`sections
    ensures body.sections == Apply(old(body.sections), laddr, lport, proto)
  {
    var ss := body.sections;
    for i := 0 to |ss|
      invariant body.sections == ss && forall k | 0 <= k < i :: !IsRtpAudio(ss[k])
    {
      var sect := ss[i];
      if Lower(sect.stype) != "audio" { continue; }
      if Lower(sect.transport) !in {"udp", "rtp/avp"} { continue; }
      ApplyIndexFirst(ss, i);
      sect := sect.(port := lport);
      if laddr.Some? && sect.conn.Some? {
        sect := sect.(conn := Some(Connection(proto, laddr.value)));
      }
      body.sections := ss[i := sect];
      return;
    }
    ApplyIndexFirst(ss, |ss|);
  }
}
