// Alice after she has sent a re-INVITE: the scenario that wants it answered and the scenario
// that wants it refused, from her event handlers to the value the run exits with.
module ReinviteVerdict {
  import opened CallEvents

  // Missing: the event carries no body; Bad: a body checkhostport rejects.
  datatype Body = Missing | Good | Bad

  datatype Input =
    | Ring(body: Body) | PreConnect(body: Body) | Connect(body: Body)
    | Fail | Disconnect | Update | Other
    | Down(origin: Origin) // the disc_cbs / fail_cbs callback

  datatype Flags = Flags(ringDone: bool, connectDone: bool, disconnectDone: bool,
                         inProgress: bool, reinviteDone: bool, nerrs: nat, nupdates: nat)

  datatype Scenario = WantsAnswer | WantsRefusal

  // a_test1.recvEvent; the flag says whether it raises.  A missing body that is not a
  // ringing's raises without counting an error.
  function BaseRecv(f: Flags, e: Input): (r: (Flags, bool))
    ensures r.0.nerrs >= f.nerrs
  {
    var g := if e.Ring? then f.(ringDone := true) else f;
    if (e.Ring? && e.body != Missing) || e.Connect? || e.PreConnect? then
      if e.body == Bad then (g.(nerrs := g.nerrs + 1), true) else (g, e.body == Missing)
    else (g, false)
  }

  // test_reinvite.recvEvent
  function RecvReinvite(f: Flags, e: Input): (r: Flags)
    ensures r.nerrs >= f.nerrs
  {
    if e.Update? then f.(nupdates := f.nupdates + 1)
    else if !f.inProgress then BaseRecv(f, e).0
    else if e.Connect? then
      var (g, raised) := BaseRecv(f.(inProgress := false), e);
      if raised then g else g.(reinviteDone := true)
    else if e.Fail? || e.Disconnect? then f.(nerrs := f.nerrs + 2)
    else BaseRecv(f, e).0
  }

  // a_test_reinv_fail.recvEvent
  function RecvReinvFail(f: Flags, e: Input): (r: Flags)
    ensures r.nerrs >= f.nerrs
  {
    if f.inProgress && !e.Ring? then
      if e.Fail? || e.Disconnect? then f.(inProgress := false, reinviteDone := true)
      else f.(nerrs := f.nerrs + 1)
    else RecvReinvite(f, e)
  }

  // a_test1.disconnected
  function WentDown(f: Flags, o: Origin): Flags {
    if o == Switch || o == Callee then f.(disconnectDone := true) else f
  }

  function Handle(k: Scenario, f: Flags, e: Input): (r: Flags)
    ensures r.nerrs >= f.nerrs
  {
    if e.Down? then WentDown(f, e.origin)
    else match k
      case WantsAnswer => RecvReinvite(f, e)
      case WantsRefusal => RecvReinvFail(f, e)
  }

  function Run(k: Scenario, f: Flags, es: seq<Input>): Flags
    decreases |es|
  {
    if es == [] then f else Run(k, Handle(k, f, es[0]), es[1..])
  }

  // test_reinvite.alldone followed by test.alldone; the result is rval
  function Verdict(f: Flags, mightfail: bool): int {
    var nerrs := f.nerrs + if !f.reinviteDone || !f.disconnectDone then 1 else 0;
    if f.ringDone && f.connectDone && f.disconnectDone && nerrs == 0 then 0
    else if mightfail then 0
    else 1
  }

  // ------------------------------------------------------------ what the inputs decide

  predicate HasBadBody(e: Input) {
    (e.Ring? || e.PreConnect? || e.Connect?) && e.body == Bad
  }

  predicate Clean(es: seq<Input>) {
    forall i | 0 <= i < |es| :: !HasBadBody(es[i])
  }

  predicate Final(e: Input) {
    e.Connect? || e.Fail? || e.Disconnect?
  }

  // The first Connect, Fail or Disconnect there is.
  ghost predicate FirstFinal(es: seq<Input>, i: nat) {
    i < |es| && Final(es[i]) && forall j | 0 <= j < i :: !Final(es[j])
  }

  // The first event there is that is not a Ring.
  ghost predicate FirstNonRing(es: seq<Input>, i: nat) {
    i < |es| && !es[i].Ring? && !es[i].Down? && forall j | 0 <= j < i :: es[j].Ring? || es[j].Down?
  }

  ghost predicate Answered(es: seq<Input>) {
    exists i: nat :: FirstFinal(es, i) && es[i] == Connect(Good)
  }

  ghost predicate Refused(es: seq<Input>) {
    exists i: nat :: FirstNonRing(es, i) && (es[i].Fail? || es[i].Disconnect?)
  }

  predicate Passes(f: Flags) {
    f.nerrs == 0 && f.reinviteDone
  }

  // A re-INVITE is outstanding and nothing has gone wrong.
  predicate Outstanding(f: Flags) {
    f.inProgress && !f.reinviteDone && f.nerrs == 0
  }

  lemma {:induction false} CleanTail(es: seq<Input>)
    requires es != []
    ensures Clean(es) <==> !HasBadBody(es[0]) && Clean(es[1..])
  {
    assert es == [es[0]] + es[1..];
  }

  // Errors are never taken back.
  lemma {:induction false} ErrorsStay(k: Scenario, f: Flags, es: seq<Input>)
    ensures Run(k, f, es).nerrs >= f.nerrs
    decreases |es|
  {
    if es != [] {
      ErrorsStay(k, Handle(k, f, es[0]), es[1..]);
    }
  }

  // Once the re-INVITE is settled only bad bodies matter.
  lemma {:induction false} Settled(k: Scenario, f: Flags, es: seq<Input>)
    requires !f.inProgress
    ensures var g := Run(k, f, es);
            && !g.inProgress && g.reinviteDone == f.reinviteDone
            && (g.nerrs == 0 <==> f.nerrs == 0 && Clean(es))
    decreases |es|
  {
    if es != [] {
      CleanTail(es);
      Settled(k, Handle(k, f, es[0]), es[1..]);
    }
  }

  lemma {:induction false} AnsweredTail(es: seq<Input>)
    requires es != []
    ensures Answered(es) <==> if Final(es[0]) then es[0] == Connect(Good) else Answered(es[1..])
  {
    assert forall j | 0 < j < |es| :: es[j] == es[1..][j - 1];
    if Final(es[0]) {
      assert forall i: nat :: FirstFinal(es, i) <==> i == 0;
    } else {
      forall i: nat | FirstFinal(es, i) ensures i > 0 && FirstFinal(es[1..], i - 1) {}
      forall i: nat | FirstFinal(es[1..], i) ensures FirstFinal(es, i + 1) {}
    }
  }

  lemma {:induction false} RefusedTail(es: seq<Input>)
    requires es != []
    ensures Refused(es) <==>
            if es[0].Ring? || es[0].Down? then Refused(es[1..]) else es[0].Fail? || es[0].Disconnect?
  {
    assert forall j | 0 < j < |es| :: es[j] == es[1..][j - 1];
    if es[0].Ring? || es[0].Down? {
      forall i: nat | FirstNonRing(es, i) ensures i > 0 && FirstNonRing(es[1..], i - 1) {}
      forall i: nat | FirstNonRing(es[1..], i) ensures FirstNonRing(es, i + 1) {}
    } else {
      assert forall i: nat :: FirstNonRing(es, i) <==> i == 0;
    }
  }

  // a_test_reinvite passes exactly when the first final event is a Connect with a good body
  // and no event, before or after, carries a bad one.
  lemma {:induction false} AnswerWanted(f: Flags, es: seq<Input>)
    requires Outstanding(f)
    ensures Passes(Run(WantsAnswer, f, es)) <==> Answered(es) && Clean(es)
    decreases |es|
  {
    if es != [] {
      var g := Handle(WantsAnswer, f, es[0]);
      CleanTail(es);
      AnsweredTail(es);
      ErrorsStay(WantsAnswer, g, es[1..]);
      if es[0].Connect? {
        Settled(WantsAnswer, g, es[1..]);
      } else if Outstanding(g) {
        AnswerWanted(g, es[1..]);
      }
    }
  }

  // a_test_reinv_fail passes exactly when the first event other than a Ring is a Fail or a
  // Disconnect and no event carries a bad body.
  lemma {:induction false} RefusalWanted(f: Flags, es: seq<Input>)
    requires Outstanding(f)
    ensures Passes(Run(WantsRefusal, f, es)) <==> Refused(es) && Clean(es)
    decreases |es|
  {
    if es != [] {
      var g := Handle(WantsRefusal, f, es[0]);
      CleanTail(es);
      RefusedTail(es);
      ErrorsStay(WantsRefusal, g, es[1..]);
      if !g.inProgress {
        Settled(WantsRefusal, g, es[1..]);
      } else if Outstanding(g) {
        RefusalWanted(g, es[1..]);
      }
    }
  }

  // No sequence of events satisfies both scenarios.
  lemma OppositeVerdicts(f: Flags, es: seq<Input>)
    requires Outstanding(f)
    ensures !(Passes(Run(WantsAnswer, f, es)) && Passes(Run(WantsRefusal, f, es)))
  {
    AnswerWanted(f, es);
    RefusalWanted(f, es);
    forall i: nat, j: nat | FirstFinal(es, i) && FirstNonRing(es, j) && (es[j].Fail? || es[j].Disconnect?)
      ensures i <= j && es[i] != Connect(Good)
    {
    }
  }

  // The call is down for Alice when she or the callee ended it.
  ghost predicate GoesDown(es: seq<Input>) {
    exists i :: 0 <= i < |es| && (es[i] == Down(Switch) || es[i] == Down(Callee))
  }

  ghost predicate Rings(es: seq<Input>) {
    exists i :: 0 <= i < |es| && es[i].Ring?
  }

  lemma GoesDownTail(es: seq<Input>)
    requires es != []
    ensures GoesDown(es) <==> es[0] == Down(Switch) || es[0] == Down(Callee) || GoesDown(es[1..])
    ensures Rings(es) <==> es[0].Ring? || Rings(es[1..])
  {
    assert forall i | 0 < i < |es| :: es[i] == es[1..][i - 1];
    forall i | 0 <= i < |es[1..]| ensures es[1..][i] == es[i + 1] {
    }
  }

  // The base handler counts bad bodies and notes ringing; nothing else.
  lemma BaseCounts(f: Flags, e: Input)
    ensures BaseRecv(f, e).0 == f.(ringDone := f.ringDone || e.Ring?, nerrs := f.nerrs + Bad1(e))
  {
  }

  lemma ReinviteFlags(f: Flags, e: Input)
    ensures var g := RecvReinvite(f, e);
            g.disconnectDone == f.disconnectDone && g.connectDone == f.connectDone
            && (g.ringDone <==> f.ringDone || e.Ring?)
  {
    BaseCounts(f, e);
    BaseCounts(f.(inProgress := false), e);
  }

  lemma FlagsStep(k: Scenario, f: Flags, e: Input)
    ensures var g := Handle(k, f, e);
            && (g.disconnectDone <==> f.disconnectDone || e == Down(Switch) || e == Down(Callee))
            && (g.ringDone <==> f.ringDone || e.Ring?) && g.connectDone == f.connectDone
  {
    ReinviteFlags(f, e);
  }

  // What the flags of the verdict are, from the flags at the start and the inputs.
  lemma {:induction false} FlagsExactly(k: Scenario, f: Flags, es: seq<Input>)
    ensures var g := Run(k, f, es);
            && (g.disconnectDone <==> f.disconnectDone || GoesDown(es))
            && (g.ringDone <==> f.ringDone || Rings(es))
            && g.connectDone == f.connectDone
    decreases |es|
  {
    if es != [] {
      GoesDownTail(es);
      FlagsStep(k, f, es[0]);
      FlagsExactly(k, Handle(k, f, es[0]), es[1..]);
    }
  }

  function BadBodies(es: seq<Input>): nat {
    if es == [] then 0 else Bad1(es[0]) + BadBodies(es[1..])
  }

  function Updates(es: seq<Input>): nat {
    if es == [] then 0 else (if es[0].Update? then 1 else 0) + Updates(es[1..])
  }

  // Failures of a re-INVITE that is to be answered: those before the first answer.
  function FailuresBeforeConnect(es: seq<Input>): nat {
    if es == [] || es[0].Connect? then 0
    else (if es[0].Fail? || es[0].Disconnect? then 1 else 0) + FailuresBeforeConnect(es[1..])
  }

  // Errors of a re-INVITE that is to be refused: until it is, everything but a ringing with no
  // bad body; afterwards bad bodies.
  function RefusalErrors(es: seq<Input>): nat {
    if es == [] then 0
    else if es[0].Fail? || es[0].Disconnect? then BadBodies(es[1..])
    else
      (if es[0].Ring? then Bad1(es[0]) else if es[0].Down? then 0 else 1)
      + RefusalErrors(es[1..])
  }

  function Bad1(e: Input): nat {
    if HasBadBody(e) then 1 else 0
  }

  lemma SettledStep(k: Scenario, f: Flags, e: Input)
    requires !f.inProgress
    ensures var g := Handle(k, f, e);
            !g.inProgress && g.nerrs == f.nerrs + Bad1(e) && g.nupdates == f.nupdates + if e.Update? then 1 else 0
  {
    BaseCounts(f, e);
  }

  lemma AnswerStep(f: Flags, e: Input)
    requires f.inProgress
    ensures var g := Handle(WantsAnswer, f, e);
            && (g.inProgress <==> !e.Connect?)
            && g.nerrs == f.nerrs + Bad1(e) + (if e.Fail? || e.Disconnect? then 2 else 0)
            && g.nupdates == f.nupdates + if e.Update? then 1 else 0
  {
    BaseCounts(f, e);
    BaseCounts(f.(inProgress := false), e);
  }

  lemma RefusalStep(f: Flags, e: Input)
    requires f.inProgress
    ensures var g := Handle(WantsRefusal, f, e);
            && (g.inProgress <==> !e.Fail? && !e.Disconnect?)
            && g.nerrs == f.nerrs +
                 if e.Ring? then Bad1(e) else if e.Down? || e.Fail? || e.Disconnect? then 0 else 1
  {
  }

  // How many errors and updates are counted.
  lemma {:induction false} ErrorsExactly(k: Scenario, f: Flags, es: seq<Input>)
    ensures Run(k, f, es).nerrs == f.nerrs +
              if !f.inProgress then BadBodies(es)
              else if k == WantsAnswer then BadBodies(es) + 2 * FailuresBeforeConnect(es)
              else RefusalErrors(es)
    ensures k == WantsAnswer || !f.inProgress ==> Run(k, f, es).nupdates == f.nupdates + Updates(es)
    decreases |es|
  {
    if es != [] {
      if !f.inProgress {
        SettledStep(k, f, es[0]);
      } else if k == WantsAnswer {
        AnswerStep(f, es[0]);
      } else {
        RefusalStep(f, es[0]);
      }
      ErrorsExactly(k, Handle(k, f, es[0]), es[1..]);
    }
  }

  // A complete call, seen from flags f on: it rang, it had connected, and it goes down.
  ghost predicate Completes(f: Flags, es: seq<Input>) {
    (f.ringDone || Rings(es)) && f.connectDone && (f.disconnectDone || GoesDown(es))
  }

  // The value the subtest ends with: unless it may fail, it is 0 exactly for a call that
  // rang, connected and went down, and whose re-INVITE met the wanted fate.
  lemma VerdictExactly(k: Scenario, f: Flags, es: seq<Input>)
    requires Outstanding(f)
    ensures Verdict(Run(k, f, es), false) == 0 <==>
            Completes(f, es) && Clean(es) && if k == WantsAnswer then Answered(es) else Refused(es)
  {
    AnswerWanted(f, es);
    RefusalWanted(f, es);
    FlagsExactly(k, f, es);
  }

  lemma NeverBothZero(f: Flags, es: seq<Input>)
    requires Outstanding(f)
    ensures Verdict(Run(WantsAnswer, f, es), false) != 0 || Verdict(Run(WantsRefusal, f, es), false) != 0
  {
    OppositeVerdicts(f, es);
  }

  // --------------------------------------------------------------- the same, as an object

  // exceptions leave the handler where the source raises them
  class AliceSubtest {
    const kind: Scenario
    const mightfail: bool
    var ringDone: bool
    var connectDone: bool
    var disconnectDone: bool
    var inProgress: bool
    var reinviteDone: bool
    var nerrs: nat
    var nupdates: nat
    var rval: int

    constructor (kind: Scenario, mightfail: bool)
      ensures this.kind == kind && this.mightfail == mightfail && rval == 1
      ensures State() == Flags(false, false, false, false, false, 0, 0)
    {
      this.kind, this.mightfail, rval := kind, mightfail, 1;
      ringDone, connectDone, disconnectDone, inProgress, reinviteDone := false, false, false, false, false;
      nerrs, nupdates := 0, 0;
    }

    ghost function State(): Flags
      reads this
    {
      Flags(ringDone, connectDone, disconnectDone, inProgress, reinviteDone, nerrs, nupdates)
    }

    method BaseRecvEvent(e: Input) returns (raised: bool)
      modifies this`ringDone, this`nerrs
      ensures (State(), raised) == BaseRecv(old(State()), e)
    {
      if e.Ring? && !ringDone { ringDone := true; }
      raised := false;
      if e.Ring? || e.Connect? || e.PreConnect? {
        if !(e.Ring? && e.body == Missing) {
          if e.body == Missing { return true; }
          if e.body == Bad {
            nerrs := nerrs + 1;
            return true;
          }
        }
      }
    }

    method RecvReinviteEvent(e: Input)
      modifies this
      ensures State() == RecvReinvite(old(State()), e) && rval == old(rval)
    {
      if e.Update? {
        nupdates := nupdates + 1;
        return;
      }
      if !inProgress {
        var _ := BaseRecvEvent(e);
        return;
      }
      if e.Connect? {
        inProgress := false;
      } else if e.Disconnect? || e.Fail? {
        nerrs := nerrs + 1;
      }
      var raised := BaseRecvEvent(e);
      if raised { return; }
      if e.Connect? {
        reinviteDone := true;
      } else if e.Disconnect? || e.Fail? {
        nerrs := nerrs + 1;
      }
    }

    method RecvEvent(e: Input)
      requires !e.Down?
      modifies this
      ensures State() == Handle(kind, old(State()), e) && rval == old(rval)
    {
      if kind == WantsRefusal && inProgress && !e.Ring? {
        if !(e.Fail? || e.Disconnect?) {
          nerrs := nerrs + 1;
          return;
        }
        inProgress := false;
        reinviteDone := true;
        return;
      }
      RecvReinviteEvent(e);
    }

    method Disconnected(origin: Origin)
      modifies this`disconnectDone
      ensures State() == Handle(kind, old(State()), Down(origin))
      ensures disconnectDone <==> old(disconnectDone) || origin == Switch || origin == Callee
    {
      if origin == Switch || origin == Callee { disconnectDone := true; }
    }

    method Alldone()
      requires rval == 1
      modifies this`nerrs, this`rval
      ensures rval == Verdict(old(State()), mightfail)
    {
      if !reinviteDone || !disconnectDone { nerrs := nerrs + 1; }
      if ringDone && connectDone && disconnectDone && nerrs == 0 {
        rval := 0;
      } else {
        if mightfail { rval := 0; }
      }
    }
  }

  // A subtest with a re-INVITE out, fed any events and callbacks and then finished: it ends
  // with 0 exactly when it may fail anyway, or the call rang, connected and went down and the
  // re-INVITE met the fate the scenario wants.
  method PlayOut(a: AliceSubtest, es: seq<Input>)
    requires Outstanding(a.State()) && a.rval == 1
    modifies a
    ensures a.rval == 0 || a.rval == 1
    ensures a.rval == 0 <==>
            || a.mightfail
            || (&& Completes(old(a.State()), es) && Clean(es)
                && if a.kind == WantsAnswer then Answered(es) else Refused(es))
  {
    ghost var start := a.State();
    for i := 0 to |es|
      invariant a.State() == Run(a.kind, start, es[..i]) && a.rval == 1
    {
      RunSnoc(a.kind, start, es[..i], es[i]);
      assert es[..i + 1] == es[..i] + [es[i]];
      if es[i].Down? {
        a.Disconnected(es[i].origin);
      } else {
        a.RecvEvent(es[i]);
      }
    }
    assert es[..|es|] == es;
    VerdictExactly(a.kind, start, es);
    a.Alldone();
  }

  lemma {:induction false} RunSnoc(k: Scenario, f: Flags, es: seq<Input>, e: Input)
    ensures Run(k, f, es + [e]) == Handle(k, Run(k, f, es), e)
    decreases |es|
  {
    if es == [] {
      assert ([] + [e])[1..] == [];
      assert Run(k, Handle(k, f, e), []) == Handle(k, f, e);
    } else {
      assert (es + [e])[1..] == es[1..] + [e];
      RunSnoc(k, Handle(k, f, es[0]), es[1..], e);
    }
  }
}
