// Bob's side of the basic scenarios: a chain of timers that ring, answer and hang up, racing
// with the call going down from elsewhere.
module BobScenarios {
  import opened CallEvents

  // The scenarios of t1 to t5.
  datatype Scenario = T1 | T2 | T3 | T4 | T5

  // What Bob hands to his user agent.
  datatype Sent = Ringing180 | Progress183 | Connect200 | Failure(code: int) | Bye

  datatype Input = FireRing | FireConnect | FireDisconnect | Down(origin: Origin)

  datatype Call = Call(ringDone: bool, connectDone: bool, disconnectDone: bool,
                       ringTimers: nat, connectTimers: nat, disconnectTimers: nat, sent: seq<Sent>)

  // answer() has accepted the INVITE and armed the ring timer.
  const ANSWERED := Call(false, false, false, 1, 0, 0, [])

  function Ring(k: Scenario, c: Call): Call {
    if c.connectDone || c.disconnectDone then c
    else match k
      case T1 | T3 => c.(connectTimers := c.connectTimers + 1, sent := c.sent + [Ringing180], ringDone := true)
      case T2 | T5 => c.(connectTimers := c.connectTimers + 1, sent := c.sent + [Progress183], ringDone := true)
      case T4 => c.(sent := c.sent + [Failure(502)], ringDone := true, connectDone := true)
  }

  // b_test3.connect tests connect_done twice, and disconnect_done not at all.
  predicate ConnectGuard(k: Scenario, c: Call) {
    c.connectDone || if k == T3 then c.connectDone else c.disconnectDone
  }

  function Connect(k: Scenario, c: Call): Call {
    if ConnectGuard(k, c) then c
    else match k
      case T1 | T2 | T4 =>
        c.(disconnectTimers := c.disconnectTimers + 1, sent := c.sent + [Connect200], connectDone := true)
      case T3 => c.(sent := c.sent + [Failure(501)], connectDone := true)
      case T5 => c.(sent := c.sent + [Failure(503)], connectDone := true)
  }

  function Disconnect(c: Call): Call {
    if c.disconnectDone then c else c.(sent := c.sent + [Bye])
  }

  function WentDown(c: Call, o: Origin): Call {
    if o == Switch || o == Caller then c.(disconnectDone := true) else c
  }

  predicate Enabled(c: Call, i: Input) {
    match i
    case FireRing => c.ringTimers > 0
    case FireConnect => c.connectTimers > 0
    case FireDisconnect => c.disconnectTimers > 0
    case Down(_) => true
  }

  function Step(k: Scenario, c: Call, i: Input): Call
    requires Enabled(c, i)
  {
    match i
    case FireRing => Ring(k, c.(ringTimers := c.ringTimers - 1))
    case FireConnect => Connect(k, c.(connectTimers := c.connectTimers - 1))
    case FireDisconnect => Disconnect(c.(disconnectTimers := c.disconnectTimers - 1))
    case Down(o) => WentDown(c, o)
  }

  ghost predicate IsRun(k: Scenario, cs: seq<Call>, ins: seq<Input>) {
    && |cs| == |ins| + 1 && cs[0] == ANSWERED
    && forall j | 0 <= j < |ins| :: Enabled(cs[j], ins[j]) && cs[j + 1] == Step(k, cs[j], ins[j])
  }

  predicate IsAnswer(s: Sent) {
    s.Connect200? || s.Failure?
  }

  function Answers(sent: seq<Sent>): nat {
    if sent == [] then 0
    else Answers(sent[..|sent| - 1]) + if IsAnswer(sent[|sent| - 1]) then 1 else 0
  }

  lemma AnswersAppend(sent: seq<Sent>, s: Sent)
    ensures Answers(sent + [s]) == Answers(sent) + if IsAnswer(s) then 1 else 0
  {
    assert (sent + [s])[..|sent|] == sent;
  }

  // Ring, connect and disconnect timers arm each other in this order only.
  function Rank(c: Call): nat {
    3 * c.ringTimers + 2 * c.connectTimers + c.disconnectTimers
  }

  // Which timer may be armed and which flags may be set together.
  ghost predicate Clocked(k: Scenario, c: Call) {
    && c.ringTimers + c.connectTimers + c.disconnectTimers <= 1
    && (c.connectDone ==> c.ringDone)
    && (c.ringDone ==> c.ringTimers == 0)
    && (c.connectTimers > 0 ==> c.ringDone && !c.connectDone && k != T4)
    && (c.disconnectTimers > 0 ==> c.connectDone && (k == T1 || k == T2))
  }

  ghost predicate AnsweredOnce(c: Call) {
    Answers(c.sent) == if c.connectDone then 1 else 0
  }

  ghost predicate Inv(k: Scenario, c: Call) {
    Clocked(k, c) && AnsweredOnce(c)
  }

  lemma Sends(c: Call, d: Call, s: Sent)
    requires AnsweredOnce(c) && d.sent == c.sent + [s]
    requires d.connectDone <==> c.connectDone || IsAnswer(s)
    requires c.connectDone ==> !IsAnswer(s)
    ensures AnsweredOnce(d)
  {
    AnswersAppend(c.sent, s);
  }

  lemma RingInv(k: Scenario, c: Call)
    requires Inv(k, c) && c.ringTimers > 0
    ensures Inv(k, Step(k, c, FireRing)) && Rank(Step(k, c, FireRing)) < Rank(c)
  {
    if !c.connectDone && !c.disconnectDone {
      var s := if k == T4 then Failure(502) else if k == T1 || k == T3 then Ringing180 else Progress183;
      Sends(c, Step(k, c, FireRing), s);
    }
  }

  lemma ConnectInv(k: Scenario, c: Call)
    requires Inv(k, c) && c.connectTimers > 0
    ensures Inv(k, Step(k, c, FireConnect)) && Rank(Step(k, c, FireConnect)) < Rank(c)
  {
    if !ConnectGuard(k, c.(connectTimers := 0)) {
      var s := if k == T3 then Failure(501) else if k == T5 then Failure(503) else Connect200;
      Sends(c, Step(k, c, FireConnect), s);
    }
  }

  lemma DisconnectInv(k: Scenario, c: Call)
    requires Inv(k, c) && c.disconnectTimers > 0
    ensures Inv(k, Step(k, c, FireDisconnect)) && Rank(Step(k, c, FireDisconnect)) < Rank(c)
  {
    if !c.disconnectDone { Sends(c, Step(k, c, FireDisconnect), Bye); }
  }

  lemma StepInv(k: Scenario, c: Call, i: Input)
    requires Inv(k, c) && Enabled(c, i)
    ensures Inv(k, Step(k, c, i))
    ensures i.Down? || Rank(Step(k, c, i)) < Rank(c)
  {
    match i
    case FireRing => RingInv(k, c);
    case FireConnect => ConnectInv(k, c);
    case FireDisconnect => DisconnectInv(k, c);
    case Down(_) =>
  }

  function Fires(ins: seq<Input>): nat {
    if ins == [] then 0 else Fires(ins[..|ins| - 1]) + if ins[|ins| - 1].Down? then 0 else 1
  }

  // In every interleaving: at most one final answer, and only once the ringing step is
  // behind; one armed timer at most; and no more than three timers ever fire.
  lemma {:induction false} RunInv(k: Scenario, cs: seq<Call>, ins: seq<Input>)
    requires IsRun(k, cs, ins)
    ensures Inv(k, cs[|ins|])
    ensures Fires(ins) + Rank(cs[|ins|]) <= 3
    decreases |ins|
  {
    if ins != [] {
      var n := |ins| - 1;
      RunInv(k, cs[..|ins|], ins[..n]);
      StepInv(k, cs[n], ins[n]);
    }
  }

  // What Bob sends in each scenario if nobody interferes.
  function Script(k: Scenario): seq<Sent> {
    match k
    case T1 => [Ringing180, Connect200, Bye]
    case T2 => [Progress183, Connect200, Bye]
    case T3 => [Ringing180, Failure(501)]
    case T4 => [Failure(502)]
    case T5 => [Progress183, Failure(503)]
  }

  // Down for Bob: he or the caller ended it.
  predicate EndsCall(i: Input) {
    i == Down(Switch) || i == Down(Caller)
  }

  // How far along the script the call is: what is sent is its beginning, and the armed timer,
  // if there is one, is for what comes next.
  ghost predicate OnScript(k: Scenario, c: Call) {
    && c.sent <= Script(k)
    && (c.ringTimers > 0 ==> c.sent == [])
    && (c.connectTimers > 0 ==> |c.sent| == 1)
    && (c.disconnectTimers > 0 ==> |c.sent| == 2)
    && (c.ringTimers + c.connectTimers + c.disconnectTimers == 0 && !c.disconnectDone ==> c.sent == Script(k))
  }

  lemma StepOnScript(k: Scenario, c: Call, i: Input)
    requires Inv(k, c) && OnScript(k, c) && Enabled(c, i)
    ensures OnScript(k, Step(k, c, i))
    ensures !c.disconnectDone && !i.Down? ==> |Step(k, c, i).sent| == |c.sent| + 1
  {
    match i
    case FireRing => assert Script(k)[..0] == [];
    case FireConnect => assert c.sent == [Script(k)[0]];
    case FireDisconnect => assert c.sent == [Script(k)[0], Script(k)[1]];
    case Down(_) =>
  }

  lemma StartsOnScript(k: Scenario)
    ensures OnScript(k, ANSWERED)
  {
  }

  lemma {:induction false} RunOnScript(k: Scenario, cs: seq<Call>, ins: seq<Input>)
    requires IsRun(k, cs, ins)
    ensures OnScript(k, cs[|ins|])
    decreases |ins|
  {
    if ins == [] {
      StartsOnScript(k);
    } else {
      var n := |ins| - 1;
      RunOnScript(k, cs[..|ins|], ins[..n]);
      RunInv(k, cs[..|ins|], ins[..n]);
      StepOnScript(k, cs[n], ins[n]);
    }
  }

  // On a call that is up every firing sends one message.
  ghost predicate OnePerFiring(c: Call, fires: nat) {
    !c.disconnectDone ==> |c.sent| == fires
  }

  lemma StepSends(k: Scenario, c: Call, i: Input, fires: nat)
    requires Inv(k, c) && OnScript(k, c) && OnePerFiring(c, fires) && Enabled(c, i)
    ensures OnePerFiring(Step(k, c, i), fires + if i.Down? then 0 else 1)
  {
    StepOnScript(k, c, i);
    StepDown(k, c, i);
  }

  lemma {:induction false} RunSends(k: Scenario, cs: seq<Call>, ins: seq<Input>)
    requires IsRun(k, cs, ins)
    ensures OnePerFiring(cs[|ins|], Fires(ins))
    decreases |ins|
  {
    if ins != [] {
      var n := |ins| - 1;
      RunSends(k, cs[..|ins|], ins[..n]);
      RunInv(k, cs[..|ins|], ins[..n]);
      RunOnScript(k, cs[..|ins|], ins[..n]);
      StepSends(k, cs[n], ins[n], Fires(ins[..n]));
    }
  }

  // The call is down exactly when Bob or the caller has ended it.
  lemma {:induction false} DownExactly(k: Scenario, cs: seq<Call>, ins: seq<Input>)
    requires IsRun(k, cs, ins)
    ensures cs[|ins|].disconnectDone <==> exists j :: 0 <= j < |ins| && EndsCall(ins[j])
    decreases |ins|
  {
    if ins != [] {
      var n := |ins| - 1;
      var c := cs[n];
      DownExactly(k, cs[..|ins|], ins[..n]);
      StepDown(k, c, ins[n]);
      assert forall j | 0 <= j < n :: ins[..n][j] == ins[j];
    }
  }

  lemma StepDown(k: Scenario, c: Call, i: Input)
    requires Enabled(c, i)
    ensures Step(k, c, i).disconnectDone <==> c.disconnectDone || EndsCall(i)
  {
  }

  // In every interleaving what Bob sends is the beginning of his script, in order, and as long
  // as nobody has ended the call it is one step of it for every timer that has fired.
  lemma SendsByScript(k: Scenario, cs: seq<Call>, ins: seq<Input>)
    requires IsRun(k, cs, ins)
    ensures cs[|ins|].sent <= Script(k)
    ensures (forall j | 0 <= j < |ins| :: !EndsCall(ins[j])) ==>
              Fires(ins) <= |Script(k)| && cs[|ins|].sent == Script(k)[..Fires(ins)]
  {
    RunOnScript(k, cs, ins);
    RunSends(k, cs, ins);
    DownExactly(k, cs, ins);
  }

  // Once the call is down nothing more is sent, unless this is scenario 3 and its connect
  // timer fires before it has answered.
  lemma SilentAfterDown(k: Scenario, cs: seq<Call>, ins: seq<Input>, i: Input)
    requires IsRun(k, cs, ins) && Enabled(cs[|ins|], i) && cs[|ins|].disconnectDone
    ensures Step(k, cs[|ins|], i).sent == cs[|ins|].sent <==> !(k == T3 && i == FireConnect)
  {
    RunInv(k, cs, ins);
  }

  // The exception is real: the caller gives up while scenario 3 is ringing, and the failure
  // is sent all the same.
  lemma FailureAfterDown()
    ensures exists cs: seq<Call>, ins ::
              && IsRun(T3, cs, ins) && |cs| == 4
              && cs[2].disconnectDone && cs[3].sent == cs[2].sent + [Failure(501)]
  {
    var c1 := Step(T3, ANSWERED, FireRing);
    var c2 := Step(T3, c1, Down(Caller));
    var c3 := Step(T3, c2, FireConnect);
    var cs, ins := [ANSWERED, c1, c2, c3], [FireRing, Down(Caller), FireConnect];
    assert IsRun(T3, cs, ins);
  }

  // ---------------------------------------------------------------- the same, as an object

  class BobSubtest {
    const kind: Scenario
    var ringDone: bool
    var connectDone: bool
    var disconnectDone: bool
    var ringTimers: nat
    var connectTimers: nat
    var disconnectTimers: nat
    var sent: seq<Sent>

    // as answer() leaves it
    constructor (kind: Scenario)
      ensures this.kind == kind && State() == ANSWERED
    {
      this.kind, sent := kind, [];
      ringDone, connectDone, disconnectDone := false, false, false;
      ringTimers, connectTimers, disconnectTimers := 1, 0, 0;
    }

    ghost function State(): Call
      reads this
    {
      Call(ringDone, connectDone, disconnectDone, ringTimers, connectTimers, disconnectTimers, sent)
    }

    method RingHandler()
      modifies this
      ensures State() == Ring(kind, old(State()))
    {
      if connectDone || disconnectDone { return; }
      if kind == T4 {
        sent := sent + [Failure(502)];
        ringDone := true;
        connectDone := true;
      } else {
        connectTimers := connectTimers + 1;
        sent := sent + [if kind == T2 || kind == T5 then Progress183 else Ringing180];
        ringDone := true;
      }
    }

    method ConnectHandler()
      modifies this
      ensures State() == Connect(kind, old(State()))
    {
      if kind == T3 {
        if connectDone || connectDone { return; }
        sent := sent + [Failure(501)];
      } else {
        if connectDone || disconnectDone { return; }
        if kind == T5 {
          sent := sent + [Failure(503)];
        } else {
          disconnectTimers := disconnectTimers + 1;
          sent := sent + [Connect200];
        }
      }
      connectDone := true;
    }

    method DisconnectHandler()
      modifies this`sent
      ensures State() == Disconnect(old(State()))
    {
      if disconnectDone { return; }
      sent := sent + [Bye];
    }

    method Disconnected(origin: Origin)
      modifies this`disconnectDone
      ensures State() == WentDown(old(State()), origin)
      ensures disconnectDone <==> old(disconnectDone) || EndsCall(Down(origin))
    {
      if origin == Switch || origin == Caller { disconnectDone := true; }
    }

    predicate Due(i: Input)
      reads this
      ensures Due(i) <==> Enabled(State(), i)
    {
      match i
      case FireRing => ringTimers > 0
      case FireConnect => connectTimers > 0
      case FireDisconnect => disconnectTimers > 0
      case Down(_) => true
    }

    // the event loop fires one armed timer
    method Fire(i: Input)
      requires Enabled(State(), i) && !i.Down?
      modifies this
      ensures State() == Step(kind, old(State()), i)
    {
      match i
      case FireRing =>
        ringTimers := ringTimers - 1;
        RingHandler();
      case FireConnect =>
        connectTimers := connectTimers - 1;
        ConnectHandler();
      case FireDisconnect =>
        disconnectTimers := disconnectTimers - 1;
        DisconnectHandler();
    }
  }

  // A subtest played on from any moment: timers that are due and callbacks in any order; what
  // is not due is passed over.  There is at most one final answer, and every timer that fires
  // brings the end nearer (three in all).  If the call was down at the start, nothing is sent
  // any more, except that scenario 3 still fails it when its connect timer fires.
  method PlayOn(b: BobSubtest, inputs: seq<Input>) returns (fired: nat)
    requires Inv(b.kind, b.State())
    modifies b
    ensures Inv(b.kind, b.State()) && Answers(b.sent) <= 1
    ensures fired + Rank(b.State()) <= old(Rank(b.State()))
    ensures old(b.disconnectDone) ==>
              b.sent == old(b.sent) + if FailsLate(b.kind, old(b.State()), inputs) then [Failure(501)] else []
  {
    fired := 0;
    ghost var c0 := b.State();
    for i := 0 to |inputs|
      invariant Inv(b.kind, b.State()) && fired + Rank(b.State()) <= Rank(c0)
      invariant c0.disconnectDone ==> Silent(b.kind, c0, inputs[..i], b.State())
    {
      ghost var c := b.State();
      if c0.disconnectDone { SilentOn(b.kind, c0, inputs[..i], c, inputs[i]); }
      assert inputs[..i + 1] == inputs[..i] + [inputs[i]];
      NextInv(b.kind, c, inputs[i]);
      if b.Due(inputs[i]) {
        if inputs[i].Down? {
          b.Disconnected(inputs[i].origin);
        } else {
          b.Fire(inputs[i]);
          fired := fired + 1;
        }
      }
      assert b.State() == Next(b.kind, c, inputs[i]);
    }
    assert inputs[..|inputs|] == inputs;
  }

  // One input, due or not.
  function Next(k: Scenario, c: Call, i: Input): Call {
    if Enabled(c, i) then Step(k, c, i) else c
  }

  lemma NextInv(k: Scenario, c: Call, i: Input)
    requires Inv(k, c)
    ensures Inv(k, Next(k, c, i))
    ensures Rank(Next(k, c, i)) + (if Enabled(c, i) && !i.Down? then 1 else 0) <= Rank(c)
  {
    if Enabled(c, i) { StepInv(k, c, i); }
  }

  predicate FailsLate(k: Scenario, c: Call, inputs: seq<Input>) {
    k == T3 && c.connectTimers > 0 && FireConnect in inputs
  }

  // What has been sent since the call was down in state c0.
  ghost predicate Silent(k: Scenario, c0: Call, inputs: seq<Input>, c: Call) {
    && c.disconnectDone && (c.connectTimers > 0 <==> c0.connectTimers > 0 && FireConnect !in inputs)
    && c.sent == c0.sent + if FailsLate(k, c0, inputs) then [Failure(501)] else []
  }

  lemma SilentOn(k: Scenario, c0: Call, inputs: seq<Input>, c: Call, i: Input)
    requires Inv(k, c) && Silent(k, c0, inputs, c)
    ensures Silent(k, c0, inputs + [i], Next(k, c, i))
  {
    if i == FireConnect && Enabled(c, i) {
      assert FireConnect !in inputs;
    }
  }
}
