// The RTP endpoint of one subtest: created on demand, updated in place, fed with the same
// chunk over and over, and shut down once.
module RtpEndpoint {
  import opened Wrappers
  import opened Sdp
  import opened MediaPick

  // parse: int() on a packet time; frames: of one chunk; enabled: not signalling_only
  datatype Setup = Setup(parse: ParseInt, frames: nat, enabled: bool)

  // Where an endpoint listens: rtp_laddr and rtp_lport of its parameters.
  datatype Local = Local(laddr: Option<string>, lport: int)

  // What the held endpoint answers at the end: frames its writer received and processed, if it
  // has a writer; packets, if it has a session; and where an exception strikes, if anywhere: a
  // failing counter leaves all three numbers at zero.
  datatype Failure = Nowhere | InCounters | InShutdown
  datatype Report = Report(writer: Option<(nat, nat)>, npkts: Option<nat>, failure: Failure)

  datatype Stats = Stats(txRcvd: nat, txPrcsd: nat, rxPkts: nat)

  // Feed's ok: the output accepts the chunk.
  datatype Op =
    | Prepare(offer: seq<Section>, laddr: Option<string>, af: Option<Family>, own: Local)
    | StartOrUpdate(answer: seq<Section>)
    | Feed(ok: bool)
    | Shutdown(report: Report)

  // created counts RTPEPoint objects; open says whether one is held; chunk is the number of
  // frames of the cached chunk; target, codec and ptime describe the last media started.
  datatype Rtp = Rtp(created: nat, open: bool, closing: bool, updates: nat,
                     target: Option<(string, int)>, codec: Option<Codec>, ptime: Option<int>,
                     chunk: Option<nat>, txGen: nat, txChunks: nat, error: bool)

  const FRESH := Rtp(0, false, false, 0, None, None, None, None, 0, 0, false)

  // sampling rate times chunk duration, but at least one frame
  function ChunkFrames(sr: nat, ms: nat): (n: nat)
    ensures sr * ms < 2000 ==> n == 1
    ensures sr * ms >= 1000 ==> 1000 * n <= sr * ms < 1000 * (n + 1)
  {
    if sr * ms / 1000 > 1 then sr * ms / 1000 else 1
  }

  function Opened(r: Rtp): Rtp {
    if r.open then r else r.(created := r.created + 1, open := true)
  }

  function Started(r: Rtp, m: Picked): Rtp
    requires m.Media?
  {
    Opened(r).(updates := if r.open then r.updates + 1 else r.updates,
               target := Some((m.addr, m.port)), codec := Some(m.codec), ptime := Some(m.ptime))
  }

  function Fed(frames: nat, r: Rtp, ok: bool): Rtp {
    if r.closing then r
    else
      var n := if r.chunk.Some? then r.chunk.value else frames;
      if ok then r.(chunk := Some(n), txGen := r.txGen + n, txChunks := r.txChunks + 1)
      else r.(chunk := Some(n), error := true)
  }

  function Closed(r: Rtp, failed: bool): Rtp {
    if r.closing then r else r.(closing := true, open := false, error := r.error || (r.open && failed))
  }

  // An exception (no media to prepare, no connection line, a second shutdown) leaves
  // everything as it was.
  function Step(k: Setup, r: Rtp, op: Op): Rtp {
    match op
    case Prepare(offer, _, _, _) => if k.enabled && Pick(k.parse, offer).Media? then Opened(r) else r
    case StartOrUpdate(answer) =>
      if k.enabled && Pick(k.parse, answer).Media? then Started(r, Pick(k.parse, answer)) else r
    case Feed(ok) => Fed(k.frames, r, ok)
    case Shutdown(report) => if k.enabled then Closed(r, report.failure != Nowhere) else r
  }

  function Run(k: Setup, r: Rtp, ops: seq<Op>): Rtp {
    if ops == [] then r else Step(k, Run(k, r, ops[..|ops| - 1]), ops[|ops| - 1])
  }

  predicate Starts(k: Setup, op: Op) {
    k.enabled && op.StartOrUpdate? && Pick(k.parse, op.answer).Media?
  }

  predicate Opens(k: Setup, op: Op) {
    Starts(k, op) || (k.enabled && op.Prepare? && Pick(k.parse, op.offer).Media?)
  }

  function Sent(ops: seq<Op>): nat {
    if ops == [] then 0 else Sent(ops[..|ops| - 1]) + if ops[|ops| - 1] == Feed(true) then 1 else 0
  }

  function StartCount(k: Setup, ops: seq<Op>): nat {
    if ops == [] then 0 else StartCount(k, ops[..|ops| - 1]) + if Starts(k, ops[|ops| - 1]) then 1 else 0
  }

  // The media of the last successful start.
  function LastStarted(k: Setup, ops: seq<Op>): (m: Picked)
    ensures m.Media? || m.Nothing?
  {
    if ops == [] then Nothing
    else if Starts(k, ops[|ops| - 1]) then Pick(k.parse, ops[|ops| - 1].answer)
    else LastStarted(k, ops[..|ops| - 1])
  }

  predicate NoShutdown(ops: seq<Op>) {
    forall i | 0 <= i < |ops| :: !ops[i].Shutdown?
  }

  ghost predicate FindsMedia(k: Setup, ops: seq<Op>) {
    exists i :: 0 <= i < |ops| && Opens(k, ops[i])
  }

  // The endpoint was made by a start, not by preparing an offer before it.
  ghost predicate StartedFirst(k: Setup, ops: seq<Op>) {
    exists i: nat :: FirstAt(k, ops, i)
  }

  lemma FindsMediaSnoc(k: Setup, ops: seq<Op>)
    requires ops != []
    ensures FindsMedia(k, ops) <==> FindsMedia(k, ops[..|ops| - 1]) || Opens(k, ops[|ops| - 1])
  {
    var front := ops[..|ops| - 1];
    forall i | 0 <= i < |front| && Opens(k, front[i]) ensures FindsMedia(k, ops) {
      assert Opens(k, ops[i]);
    }
    forall i | 0 <= i < |ops| && Opens(k, ops[i]) ensures i == |front| || FindsMedia(k, front) {
      if i < |front| { assert Opens(k, front[i]); }
    }
  }

  // The start at i is the first operation that opens anything.
  ghost predicate FirstAt(k: Setup, ops: seq<Op>, i: nat) {
    i < |ops| && Starts(k, ops[i]) && forall j | 0 <= j < i :: !Opens(k, ops[j])
  }

  lemma FirstAtPrefix(k: Setup, ops: seq<Op>, n: nat, i: nat)
    requires i < n <= |ops|
    ensures FirstAt(k, ops[..n], i) <==> FirstAt(k, ops, i)
  {
    assert forall j | 0 <= j <= i :: ops[..n][j] == ops[j];
  }

  lemma FirstAtEnd(k: Setup, ops: seq<Op>)
    requires ops != []
    ensures var n := |ops| - 1;
            FirstAt(k, ops, n) <==> Starts(k, ops[n]) && !FindsMedia(k, ops[..n])
  {
    var n := |ops| - 1;
    assert forall j | 0 <= j < n :: ops[..n][j] == ops[j];
  }

  lemma StartedFirstSnoc(k: Setup, ops: seq<Op>)
    requires ops != []
    ensures var front := ops[..|ops| - 1];
            StartedFirst(k, ops) <==> StartedFirst(k, front) || (Starts(k, ops[|ops| - 1]) && !FindsMedia(k, front))
  {
    var n := |ops| - 1;
    FirstAtEnd(k, ops);
    forall i: nat | i < n ensures FirstAt(k, ops[..n], i) <==> FirstAt(k, ops, i) {
      FirstAtPrefix(k, ops, n, i);
    }
  }

  // Before the shutdown there is one endpoint exactly when some media was found.
  lemma {:induction false} OneEndpoint(k: Setup, ops: seq<Op>)
    requires NoShutdown(ops)
    ensures var r := Run(k, FRESH, ops);
            && !r.closing && r.created <= 1 && (r.open <==> r.created == 1)
            && (r.created == 1 <==> FindsMedia(k, ops))
  {
    if ops != [] {
      OneEndpoint(k, ops[..|ops| - 1]);
      FindsMediaSnoc(k, ops);
    }
  }

  // Every start is an update of the one endpoint, except a start that makes it.
  lemma {:induction false} UpdatesCounted(k: Setup, ops: seq<Op>)
    requires NoShutdown(ops)
    ensures Run(k, FRESH, ops).updates + (if StartedFirst(k, ops) then 1 else 0) == StartCount(k, ops)
  {
    if ops != [] {
      var front := ops[..|ops| - 1];
      UpdatesCounted(k, front);
      OneEndpoint(k, front);
      StartedFirstSnoc(k, ops);
      if StartedFirst(k, front) { StartedIsFound(k, front); }
    }
  }

  lemma StartedIsFound(k: Setup, ops: seq<Op>)
    requires StartedFirst(k, ops)
    ensures FindsMedia(k, ops)
  {
    var i: nat :| FirstAt(k, ops, i);
    assert Opens(k, ops[i]);
  }

  // Target, codec and packet time are those of the last media started, shut down or not.
  lemma {:induction false} LastStartRecorded(k: Setup, ops: seq<Op>)
    ensures var r, m := Run(k, FRESH, ops), LastStarted(k, ops);
            if m.Media? then
              && r.target == Some((m.addr, m.port))
              && r.codec == Some(m.codec) && r.ptime == Some(m.ptime) && m.ptime >= 10
            else r.target == None && r.codec == None && r.ptime == None
  {
    if ops != [] { LastStartRecorded(k, ops[..|ops| - 1]); }
  }

  // The frames generated are the accepted chunks times the chunk size, failed sends
  // notwithstanding.
  lemma {:induction false} FramesConserved(k: Setup, ops: seq<Op>)
    requires NoShutdown(ops)
    ensures var r := Run(k, FRESH, ops);
            && r.txChunks == Sent(ops) && r.txGen == Sent(ops) * k.frames
            && (r.chunk.Some? ==> r.chunk.value == k.frames)
  {
    if ops != [] {
      var n := |ops| - 1;
      OneEndpoint(k, ops[..n]);
      FramesConserved(k, ops[..n]);
      OneChunkMore(Sent(ops[..n]), k.frames);
    }
  }

  lemma OneChunkMore(s: nat, frames: nat)
    ensures (s + 1) * frames == s * frames + frames
  {
  }

  // Before the shutdown there is an error exactly when a send has failed.
  lemma {:induction false} ErrorExactly(k: Setup, ops: seq<Op>)
    requires NoShutdown(ops)
    ensures Run(k, FRESH, ops).error <==> Feed(false) in ops
  {
    if ops != [] {
      var n := |ops| - 1;
      OneEndpoint(k, ops[..n]);
      ErrorExactly(k, ops[..n]);
      assert ops == ops[..n] + [ops[n]];
    }
  }

  // After it, nothing that is fed counts, and a second endpoint is made exactly when media is
  // started again.
  lemma {:induction false} AfterShutdown(k: Setup, before: seq<Op>, report: Report, after: seq<Op>)
    requires k.enabled && NoShutdown(before)
    ensures var r := Run(k, FRESH, before);
            var t := Run(k, Step(k, r, Shutdown(report)), after);
            && t.closing && t.txGen == r.txGen && t.txChunks == r.txChunks
            && (t.error <==> r.error || (r.open && report.failure != Nowhere))
            && t.created == r.created + (if t.open then 1 else 0)
            && (t.open <==> FindsMedia(k, after))
  {
    OneEndpoint(k, before);
    if after != [] {
      AfterShutdown(k, before, report, after[..|after| - 1]);
      FindsMediaSnoc(k, after);
    }
  }

  // With signalling only there is never an endpoint, nor a shutdown.
  lemma {:induction false} NothingIfDisabled(k: Setup, ops: seq<Op>)
    requires !k.enabled
    ensures var r := Run(k, FRESH, ops); r.created == 0 && !r.open && !r.closing && r.target == None
  {
    if ops != [] { NothingIfDisabled(k, ops[..|ops| - 1]); }
  }

  // ---------------------------------------------------------------- the same, as an object

  class RtpSide {
    const k: Setup
    var endpoint: Option<nat>   // which of the endpoints made so far is held
    var created: nat
    var closing: bool
    var updates: nat
    var target: Option<(string, int)>
    var codec: Option<Codec>
    var ptime: Option<int>
    var chunk: Option<nat>
    var txGen: nat
    var txChunks: nat
    var error: bool

    // _rtp_init
    constructor (parse: ParseInt, sr: nat, chunkMs: nat, signallingOnly: bool)
      ensures k == Setup(parse, ChunkFrames(sr, chunkMs), !signallingOnly) && State() == FRESH
    {
      k := Setup(parse, ChunkFrames(sr, chunkMs), !signallingOnly);
      endpoint, created, closing, updates := None, 0, false, 0;
      target, codec, ptime := None, None, None;
      chunk, txGen, txChunks, error := None, 0, 0, false;
    }

    ghost function State(): Rtp
      reads this
    {
      Rtp(created, endpoint.Some?, closing, updates, target, codec, ptime, chunk, txGen, txChunks, error)
    }

    method HoldEndpoint()
      modifies this`endpoint, this`created
      ensures State() == Opened(old(State()))
    {
      if endpoint.None? {
        endpoint := Some(created);
        created := created + 1;
      }
    }

    // _rtp_prepare_local_sdp.  A prepared offer names the held endpoint; who picks media from
    // it finds that address exactly when PeerPicks says so.
    method PrepareLocal(body: SdpBody, laddr: Option<string>, af: Option<Family>, own: Local) returns (ok: bool)
      modifies this`endpoint, this`created, body`sections
      ensures State() == Step(k, old(State()), Prepare(old(body.sections), laddr, af, own))
      ensures ok <==> k.enabled ==>
                && Pick(k.parse, old(body.sections)).Media?
                && (var a := if laddr.Some? then laddr else own.laddr;
                    && a.Some? && a != Some("0.0.0.0") && a != Some("::") && a != Some("*") && a != Some("")
                    && a.value[0] != '[' && a.value[|a.value| - 1] != ']')
      ensures !k.enabled || !ok ==> body.sections == old(body.sections)
      ensures k.enabled && ok ==>
                var ss, a := old(body.sections), if laddr.Some? then laddr.value else own.laddr.value;
                var p := Pick(k.parse, ss);
                && endpoint.Some? && ApplyIndex(ss) < |ss|
                && Pick(k.parse, body.sections) ==
                   if Offers(ss[ApplyIndex(ss)])
                   then p.(addr := a, port := own.lport, proto := if af.Some? then af.value else p.proto)
                   else p
    {
      if !k.enabled { return true; }
      var m := PickMedia(k.parse, body);
      if !m.Media? { return false; }
      var proto := if af.Some? then af.value else m.proto;
      HoldEndpoint();
      var a := if laddr.Some? then laddr else own.laddr;
      if a.None? || a.value in {"0.0.0.0", "::", "*", ""} { return false; }
      if a.value[0] == '[' || a.value[|a.value| - 1] == ']' { return false; }
      PeerPicks(k.parse, body.sections, a.value, own.lport, proto);
      ApplyLocalMedia(body, a, own.lport, proto);
      return true;
    }

    // _rtp_start_or_update; false for the attribute error of a missing connection line
    method StartOrUpdateMedia(body: SdpBody) returns (ok: bool)
      modifies this
      ensures State() == Step(k, old(State()), StartOrUpdate(body.sections))
      ensures ok <==> k.enabled ==> !Pick(k.parse, body.sections).Raised?
    {
      if !k.enabled { return true; }
      var m := PickMedia(k.parse, body);
      if !m.Media? { return m.Nothing?; }
      if endpoint.None? {
        HoldEndpoint();
      } else {
        updates := updates + 1;
      }
      target := Some((m.addr, m.port));
      codec := Some(m.codec);
      ptime := Some(m.ptime);
      return true;
    }

    method FeedOnce(ok: bool)
      modifies this`chunk, this`txGen, this`txChunks, this`error
      ensures State() == Step(k, old(State()), Feed(ok))
    {
      if closing { return; }
      if chunk.None? { chunk := Some(k.frames); }
      if !ok {
        error := true;
        return;
      }
      txGen := txGen + chunk.value;
      txChunks := txChunks + 1;
    }

    // _rtp_shutdown_stats; the assertion on closing makes a second call raise
    method ShutdownStats(report: Report) returns (raised: bool, stats: Stats)
      modifies this`closing, this`endpoint, this`error
      ensures State() == Step(k, old(State()), Shutdown(report))
      ensures raised <==> k.enabled && old(closing)
      ensures !k.enabled || raised || old(endpoint).None? || report.failure == InCounters ==> stats == Stats(0, 0, 0)
      ensures k.enabled && !raised && old(endpoint).Some? && report.failure != InCounters ==>
                && (match report.writer
                    case None => stats.txRcvd == 0 && stats.txPrcsd == 0
                    case Some(ctrs) => stats.txRcvd == ctrs.0 && stats.txPrcsd == ctrs.1)
                && stats.rxPkts == if report.npkts.None? then 0 else report.npkts.value
    {
      stats := Stats(0, 0, 0);
      if !k.enabled { return false, stats; }
      if closing { return true, stats; }
      closing := true;
      if endpoint.None? { return false, stats; }
      if report.failure == InCounters {
        error := true;
      } else {
        if report.writer.Some? {
          stats := stats.(txRcvd := report.writer.value.0, txPrcsd := report.writer.value.1);
        }
        if report.npkts.Some? { stats := stats.(rxPkts := report.npkts.value); }
        if report.failure == InShutdown { error := true; }
      }
      endpoint := None;
      return false, stats;
    }

    method Do(op: Op)
      modifies this
      ensures State() == Step(k, old(State()), op)
    {
      match op
      case Prepare(offer, laddr, af, own) =>
        var body := new SdpBody(offer, OriginLine(0, 0), "");
        var _ := PrepareLocal(body, laddr, af, own);
      case StartOrUpdate(answer) =>
        var body := new SdpBody(answer, OriginLine(0, 0), "");
        var _ := StartOrUpdateMedia(body);
      case Feed(ok) => FeedOnce(ok);
      case Shutdown(report) => var _, _ := ShutdownStats(report);
    }
  }

  // A subtest's RTP side from its making, through any operations before the shutdown.
  method PlayOut(parse: ParseInt, sr: nat, chunkMs: nat, signallingOnly: bool, ops: seq<Op>) returns (side: RtpSide)
    ensures fresh(side) && side.State() == Run(side.k, FRESH, ops)
    ensures side.k == Setup(parse, ChunkFrames(sr, chunkMs), !signallingOnly)
    ensures NoShutdown(ops) ==>
              && side.created <= 1 && (side.endpoint.Some? <==> FindsMedia(side.k, ops))
              && side.updates + (if StartedFirst(side.k, ops) then 1 else 0) == StartCount(side.k, ops)
              && side.txGen == side.txChunks * ChunkFrames(sr, chunkMs) && side.txChunks == Sent(ops)
  {
    side := new RtpSide(parse, sr, chunkMs, signallingOnly);
    for i := 0 to |ops|
      invariant fresh(side) && side.State() == Run(side.k, FRESH, ops[..i])
      invariant side.k == Setup(parse, ChunkFrames(sr, chunkMs), !signallingOnly)
    {
      assert ops[..i + 1][..i] == ops[..i];
      side.Do(ops[i]);
    }
    assert ops[..|ops|] == ops;
    if NoShutdown(ops) {
      OneEndpoint(side.k, ops);
      UpdatesCounted(side.k, ops);
      FramesConserved(side.k, ops);
    }
  }
}
