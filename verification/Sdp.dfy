// Session bodies as far as the suite looks into them.
module Sdp {
  import opened Wrappers

  datatype Family = IP4 | IP6

  // c= line
  datatype Connection = Connection(atype: Family, addr: string)

  // a= line
  datatype Attribute = Attribute(name: string, value: Option<string>)

  // one m= section
  datatype Section = Section(stype: string, transport: string, port: int, formats: seq<int>,
                             conn: Option<Connection>, attrs: seq<Attribute>)

  function LowerChar(c: char): char {
    if 'A' <= c <= 'Z' then c - 'A' + 'a' else c
  }

  function Lower(s: string): string {
    seq(|s|, i requires 0 <= i < |s| => LowerChar(s[i]))
  }

  // a and b are the same but for the case of ASCII letters; b has none in upper case.
  ghost predicate EqualIgnoringCase(a: string, b: string) {
    && |a| == |b|
    && forall i | 0 <= i < |a| ::
         a[i] == b[i] || ('A' <= a[i] <= 'Z' && 'a' <= b[i] <= 'z' && a[i] - 'A' == b[i] - 'a')
  }

  lemma LowerExactly(s: string, t: string)
    requires forall i | 0 <= i < |t| :: !('A' <= t[i] <= 'Z')
    ensures Lower(s) == t <==> EqualIgnoringCase(s, t)
  {
    if Lower(s) == t {
      forall i | 0 <= i < |s|
        ensures s[i] == t[i] || ('A' <= s[i] <= 'Z' && 'a' <= t[i] <= 'z' && s[i] - 'A' == t[i] - 'a')
      {
        assert t[i] == LowerChar(s[i]);
      }
    }
    if EqualIgnoringCase(s, t) {
      assert forall i | 0 <= i < |s| :: Lower(s)[i] == t[i];
    }
  }

  // sections the port checks are about
  predicate IsRelayed(s: Section) {
    Lower(s.transport) in {"udp", "udptl", "rtp/avp"}
  }

  // sections the RTP endpoints are about
  predicate IsRtpAudio(s: Section) {
    Lower(s.stype) == "audio" && Lower(s.transport) in {"udp", "rtp/avp"}
  }

  // The port checks are about UDP, UDPTL and RTP/AVP, in any case of letters ...
  lemma RelayedExactly(s: Section)
    ensures IsRelayed(s) <==>
            || EqualIgnoringCase(s.transport, "udp") || EqualIgnoringCase(s.transport, "udptl")
            || EqualIgnoringCase(s.transport, "rtp/avp")
  {
    LowerExactly(s.transport, "udp");
    LowerExactly(s.transport, "udptl");
    LowerExactly(s.transport, "rtp/avp");
  }

  // ... and the endpoints about audio over UDP or RTP/AVP.
  lemma RtpAudioExactly(s: Section)
    ensures IsRtpAudio(s) <==>
            && EqualIgnoringCase(s.stype, "audio")
            && (EqualIgnoringCase(s.transport, "udp") || EqualIgnoringCase(s.transport, "rtp/avp"))
  {
    LowerExactly(s.stype, "audio");
    LowerExactly(s.transport, "udp");
    LowerExactly(s.transport, "rtp/avp");
  }

  // o= line
  datatype OriginLine = OriginLine(session: nat, version: nat)

  // A body whose lines are updated in place.
  class SdpBody {
    var sections: seq<Section>
    var origin: OriginLine
    var sessionName: string

    constructor (sections: seq<Section>, origin: OriginLine, sessionName: string)
      ensures this.sections == sections && this.origin == origin && this.sessionName == sessionName
    {
      this.sections, this.origin, this.sessionName := sections, origin, sessionName;
    }
  }
}
