// Alice puts Bob on hold and takes him off hold again, over a reliable channel that keeps
// the order of messages.  Timers fire in any order: no clock is assumed.
module OnHoldProtocol {
  import opened Sdp

  // ------------------------------------------------------------------ session bodies

  // What the script touches of one media section: its address and its attributes.
  datatype Line = Line(addr: string, attrs: seq<string>)

  type Body = seq<Line>

  function NullAddress(atype: Family): string {
    if atype == IP4 then "0.0.0.0" else "::"
  }

  function WithoutAttr(attrs: seq<string>, a: string): seq<string> {
    if attrs == [] then []
    else (if attrs[0] == a then [] else [attrs[0]]) + WithoutAttr(attrs[1..], a)
  }

  function HoldLine(s: Line, atype: Family): Line {
    Line(NullAddress(atype), WithoutAttr(s.attrs, "sendrecv"))
  }

  function Held(body: Body, atype: Family): Body {
    seq(|body|, i requires 0 <= i < |body| => HoldLine(body[i], atype))
  }

  // left is attrs without its "sendrecv"s: idx says which attributes are left, in their order,
  // each as often as it was there.
  ghost predicate Selects(attrs: seq<string>, left: seq<string>, idx: seq<nat>) {
    && |idx| == |left|
    && (forall i | 0 <= i < |idx| :: idx[i] < |attrs| && left[i] == attrs[idx[i]] != "sendrecv")
    && (forall i, j | 0 <= i < j < |idx| :: idx[i] < idx[j])
    && (forall k | 0 <= k < |attrs| && attrs[k] != "sendrecv" :: k in idx)
  }

  // What an offer to hold looks like: as many sections, each with the null address of the
  // call's family and without "sendrecv".
  ghost predicate PutOnHold(body: Body, atype: Family, offer: Body) {
    && |offer| == |body|
    && forall i | 0 <= i < |body| ::
         && offer[i].addr == (if atype == IP4 then "0.0.0.0" else "::")
         && "sendrecv" !in offer[i].attrs
         && exists idx :: Selects(body[i].attrs, offer[i].attrs, idx)
  }

  lemma {:induction false} WithoutSelects(attrs: seq<string>) returns (idx: seq<nat>)
    ensures Selects(attrs, WithoutAttr(attrs, "sendrecv"), idx) && "sendrecv" !in WithoutAttr(attrs, "sendrecv")
  {
    idx := [];
    if attrs != [] {
      var n := |attrs| - 1;
      idx := WithoutSelects(attrs[..n]);
      WithoutSnoc(attrs[..n], attrs[n], "sendrecv");
      assert attrs == attrs[..n] + [attrs[n]];
      if attrs[n] != "sendrecv" { idx := SelectsSnoc(attrs, idx); }
    }
  }

  lemma SelectsSnoc(attrs: seq<string>, idx: seq<nat>) returns (more: seq<nat>)
    requires attrs != [] && attrs[|attrs| - 1] != "sendrecv"
    requires Selects(attrs[..|attrs| - 1], WithoutAttr(attrs[..|attrs| - 1], "sendrecv"), idx)
    ensures Selects(attrs, WithoutAttr(attrs[..|attrs| - 1], "sendrecv") + [attrs[|attrs| - 1]], more)
  {
    var n := |attrs| - 1;
    more := idx + [n];
    forall k | 0 <= k < |attrs| && attrs[k] != "sendrecv" ensures k in more {
      if k < n {
        assert attrs[..n][k] == attrs[k];
      } else {
        assert more[|idx|] == n;
      }
    }
  }

  lemma {:induction false} WithoutSnoc(attrs: seq<string>, x: string, a: string)
    ensures WithoutAttr(attrs + [x], a) == WithoutAttr(attrs, a) + if x == a then [] else [x]
  {
    if attrs != [] {
      assert (attrs + [x])[1..] == attrs[1..] + [x];
      WithoutSnoc(attrs[1..], x, a);
    }
  }

  // Alice's hold offer is her body put on hold.
  lemma HeldExactly(body: Body, atype: Family)
    ensures PutOnHold(body, atype, Held(body, atype))
  {
    forall i | 0 <= i < |body|
      ensures "sendrecv" !in Held(body, atype)[i].attrs
              && exists idx :: Selects(body[i].attrs, Held(body, atype)[i].attrs, idx)
    {
      var idx := WithoutSelects(body[i].attrs);
    }
  }

  // The body of the call and the version in its origin line, the address family, what the
  // SDP library reports as "on hold", and whether the user agent takes over an offered body
  // as its own; the last two are the library's and may be anything.
  datatype Setup = Setup(lSDP: Body, version: nat, atype: Family, onHold: Line -> bool, adopts: bool)

  // A section with a null address is on hold, whatever else the library counts.
  ghost predicate NullIsOnHold(k: Setup) {
    forall s: Line | s.addr == (if k.atype == IP4 then "0.0.0.0" else "::") :: k.onHold(s)
  }

  // How Bob counts an offer: the loop keeps the last section's answer.
  predicate CountsAsHold(k: Setup, body: Body) {
    body != [] && k.onHold(body[|body| - 1])
  }

  // Bob tells Alice's two kinds of offer apart exactly when there is a section to look at
  // and the last one does not start out on hold.
  lemma OffersToldApart(k: Setup)
    requires NullIsOnHold(k)
    ensures CountsAsHold(k, Held(k.lSDP, k.atype)) && !CountsAsHold(k, k.lSDP)
            <==> k.lSDP != [] && !k.onHold(k.lSDP[|k.lSDP| - 1])
  {
    if k.lSDP != [] {
      assert Held(k.lSDP, k.atype)[|k.lSDP| - 1] == HoldLine(k.lSDP[|k.lSDP| - 1], k.atype);
    }
  }

  // ------------------------------------------------------------------------ parties

  // An offer carries its body and the version in the body's origin line.
  datatype ToBob = Offer(body: Body, version: nat) | Bye
  // valid: whether checkhostport accepts the answer's body
  datatype ToAlice = Answer(valid: bool) | Hangup

  datatype Alice = Alice(
    connectDone: bool, disconnectDone: bool, inProgress: bool, reinviteDone: bool, nerrs: nat,
    onhold: nat, offhold: nat, sched: seq<real>,
    version: nat, // of ua.lSDP
    reinviteTimers: nat, offHoldTimers: nat, disconnectTimers: nat)

  datatype Ending = Up | AliceHungUp | BobHungUp

  datatype Bob = Bob(ended: Ending, onhold: nat, offhold: nat, nupdates: nat)

  // sent keeps the offers Alice has made, as history.
  datatype World = World(a: Alice, b: Bob, toBob: seq<ToBob>, toAlice: seq<ToAlice>, sent: seq<ToBob>)

  // ------------------------------------------------------- Alice's handlers, as functions

  function Pending(a: Alice): nat {
    a.reinviteTimers + a.offHoldTimers
  }

  predicate MaySend(a: Alice) {
    a.connectDone && !a.disconnectDone
  }

  function Connected(a: Alice): Alice {
    a.(connectDone := true, disconnectTimers := a.disconnectTimers + 1, reinviteTimers := a.reinviteTimers + 1)
  }

  // The version goes up in the copy that is offered; ua.lSDP is put back afterwards.
  function Reinvite(a: Alice): Alice {
    if !MaySend(a) then a else a.(inProgress := true, onhold := a.onhold + 1)
  }

  // off_hold counts even when the guard of reinvite() kept the offer back.
  function OffHold(k: Setup, a: Alice): Alice {
    a.(inProgress := a.inProgress || MaySend(a), offhold := a.offhold + 1,
       version := if MaySend(a) && k.adopts then a.version + 1 else a.version)
  }

  function NextTimer(a: Alice): Alice {
    if a.sched == [] then a
    else
      var b := a.(sched := a.sched[..|a.sched| - 1]);
      if a.onhold > a.offhold then b.(offHoldTimers := a.offHoldTimers + 1)
      else b.(reinviteTimers := a.reinviteTimers + 1)
  }

  // recvEvent on a Connect event
  function RecvConnect(a: Alice, valid: bool): Alice {
    var b := a.(inProgress := false);
    if !valid then b.(nerrs := a.nerrs + 1)
    else if !a.inProgress then b
    else NextTimer(b.(reinviteDone := true))
  }

  // recvEvent on a Disconnect event, followed by the disconnected callback
  function RecvHangup(a: Alice): Alice {
    a.(nerrs := a.nerrs + (if a.inProgress then 2 else 0), disconnectDone := true)
  }

  predicate CountsComplete(onhold: nat, offhold: nat) {
    onhold == 3 && offhold == 2
  }

  predicate SendsBye(a: Alice) {
    !a.disconnectDone && CountsComplete(a.onhold, a.offhold)
  }

  function Disconnect(a: Alice): Alice {
    if a.disconnectDone then a
    else if !CountsComplete(a.onhold, a.offhold) then a.(disconnectTimers := a.disconnectTimers + 1)
    else a.(disconnectDone := true)
  }

  function RecvUpdate(k: Setup, b: Bob, body: Body): Bob {
    if CountsAsHold(k, body) then b.(onhold := b.onhold + 1, nupdates := b.nupdates + 1)
    else b.(offhold := b.offhold + 1, nupdates := b.nupdates + 1)
  }

  // ---------------------------------------------------------------------- the system

  datatype Step =
    | Establish               // the initial call connects
    | FireReinvite | FireOffHold | FireDisconnect
    | DeliverToBob(valid: bool) // valid: whether the answer to an offer will pass Alice's check
    | DeliverToAlice
    | HangUpBob               // Bob's own disconnect timer

  predicate Enabled(w: World, s: Step) {
    match s
    case Establish => !w.a.connectDone && !w.a.disconnectDone
    case FireReinvite => w.a.reinviteTimers > 0
    case FireOffHold => w.a.offHoldTimers > 0
    case FireDisconnect => w.a.disconnectTimers > 0
    case DeliverToBob(_) => w.toBob != []
    case DeliverToAlice => w.toAlice != []
    case HangUpBob => w.b.ended == Up
  }

  function Send(a: Alice, m: ToBob, q: seq<ToBob>): seq<ToBob> {
    if MaySend(a) then q + [m] else q
  }

  function HoldOffer(k: Setup, a: Alice): ToBob {
    Offer(Held(k.lSDP, k.atype), a.version + 1)
  }

  function ResumeOffer(k: Setup, a: Alice): ToBob {
    Offer(k.lSDP, a.version + 1)
  }

  function Next(k: Setup, w: World, s: Step): World
    requires Enabled(w, s)
  {
    match s
    case Establish => w.(a := Connected(w.a))
    case FireReinvite =>
      var a := w.a.(reinviteTimers := w.a.reinviteTimers - 1);
      w.(a := Reinvite(a), toBob := Send(a, HoldOffer(k, a), w.toBob), sent := Send(a, HoldOffer(k, a), w.sent))
    case FireOffHold =>
      var a := w.a.(offHoldTimers := w.a.offHoldTimers - 1);
      w.(a := OffHold(k, a), toBob := Send(a, ResumeOffer(k, a), w.toBob), sent := Send(a, ResumeOffer(k, a), w.sent))
    case FireDisconnect =>
      var a := w.a.(disconnectTimers := w.a.disconnectTimers - 1);
      w.(a := Disconnect(a), toBob := if SendsBye(a) then w.toBob + [Bye] else w.toBob)
    case DeliverToBob(valid) =>
      var m, rest := w.toBob[0], w.toBob[1..];
      if w.b.ended != Up then w.(toBob := rest)
      else (
        match m
        case Offer(body, _) =>
          w.(b := RecvUpdate(k, w.b, body), toBob := rest, toAlice := w.toAlice + [Answer(valid)])
        case Bye => w.(b := w.b.(ended := AliceHungUp), toBob := rest)
      )
    case DeliverToAlice =>
      var m, rest := w.toAlice[0], w.toAlice[1..];
      if w.a.disconnectDone then w.(toAlice := rest)
      else w.(a := if m.Answer? then RecvConnect(w.a, m.valid) else RecvHangup(w.a), toAlice := rest)
    case HangUpBob => w.(b := w.b.(ended := BobHungUp), toAlice := w.toAlice + [Hangup])
  }

  ghost predicate Initial(k: Setup, w: World) {
    && |w.a.sched| == 4
    && w.a == Alice(false, false, false, false, 0, 0, 0, w.a.sched, k.version, 0, 0, 0)
    && w.b == Bob(Up, 0, 0, 0) && w.toBob == [] && w.toAlice == [] && w.sent == []
  }

  ghost predicate IsRun(k: Setup, ws: seq<World>, steps: seq<Step>) {
    && |ws| == |steps| + 1 && Initial(k, ws[0])
    && forall i | 0 <= i < |steps| :: Enabled(ws[i], steps[i]) && ws[i + 1] == Next(k, ws[i], steps[i])
  }

  // Bob can tell the offers apart (see OffersToldApart).
  ghost predicate Distinguishable(k: Setup) {
    NullIsOnHold(k) && k.lSDP != [] && !k.onHold(k.lSDP[|k.lSDP| - 1])
  }

  // ------------------------------------------------------------------- the invariant

  // Alice's books while she is in the call.
  ghost predicate Ledger(a: Alice) {
    && a.onhold + a.offhold + |a.sched| + Pending(a) == 5 && |a.sched| <= 4
    && (a.onhold == a.offhold || a.onhold == a.offhold + 1)
    && Pending(a) + (if a.inProgress then 1 else 0) <= 1
    && (a.reinviteTimers > 0 ==> a.onhold == a.offhold)
    && (a.offHoldTimers > 0 ==> a.onhold == a.offhold + 1)
    && (a.nerrs == 0 && !a.inProgress && Pending(a) == 0 ==> a.sched == [])
    && (a.nerrs > 0 ==> !a.inProgress && Pending(a) == 0)
    && (a.reinviteDone <==> |a.sched| < 4)
    && a.disconnectTimers == 1
  }

  function Offers(q: seq<ToBob>): nat {
    if q == [] then 0 else (if q[0].Offer? then 1 else 0) + Offers(q[1..])
  }

  function Answers(q: seq<ToAlice>): nat {
    if q == [] then 0 else (if q[0].Answer? then 1 else 0) + Answers(q[1..])
  }

  // A re-INVITE is in progress until its final response has been delivered.
  function InFlight(w: World): nat {
    Offers(w.toBob) + Answers(w.toAlice)
  }

  function Holds(k: Setup, q: seq<ToBob>): nat {
    if q == [] then 0 else (if q[0].Offer? && CountsAsHold(k, q[0].body) then 1 else 0) + Holds(k, q[1..])
  }

  // The shape of the channels: at most one offer, and nothing behind a Bye or a Hangup.
  ghost predicate Channels(w: World) {
    && (w.toBob == [] || w.toBob == [Bye]
        || (w.toBob[0].Offer? && (|w.toBob| == 1 || (|w.toBob| == 2 && w.toBob[1] == Bye))))
    && (w.toAlice == [] || |w.toAlice| == 1
        || (|w.toAlice| == 2 && w.toAlice[0].Answer? && w.toAlice[1].Hangup?))
    && InFlight(w) <= 1
  }

  lemma {:induction false} ToBobAppend(k: Setup, q: seq<ToBob>, m: ToBob)
    ensures Offers(q + [m]) == Offers(q) + (if m.Offer? then 1 else 0)
    ensures Holds(k, q + [m]) == Holds(k, q) + (if m.Offer? && CountsAsHold(k, m.body) then 1 else 0)
  {
    if q != [] {
      assert (q + [m])[1..] == q[1..] + [m];
      ToBobAppend(k, q[1..], m);
    }
  }

  lemma {:induction false} ToAliceAppend(q: seq<ToAlice>, m: ToAlice)
    ensures Answers(q + [m]) == Answers(q) + (if m.Answer? then 1 else 0)
  {
    if q != [] {
      assert (q + [m])[1..] == q[1..] + [m];
      ToAliceAppend(q[1..], m);
    }
  }

  ghost predicate Inv(k: Setup, w: World) {
    && Channels(w)
    && (!w.a.connectDone ==>
          && w.toBob == [] && Answers(w.toAlice) == 0 && !w.a.inProgress && Pending(w.a) == 0
          && w.a.onhold == 0 && w.a.offhold == 0 && |w.a.sched| == 4 && w.a.nerrs == 0 && !w.a.reinviteDone
          && w.a.disconnectTimers == 0 && w.b.onhold == 0 && w.b.offhold == 0)
    && (MaySend(w.a) ==>
          && Ledger(w.a) && Bye !in w.toBob
          && (InFlight(w) == 1 ==> w.a.inProgress)
          && (w.a.inProgress && w.b.ended == Up ==> InFlight(w) == 1))
    && (Hangup in w.toAlice ==> w.b.ended == BobHungUp)
    && (w.b.ended == BobHungUp && !w.a.disconnectDone ==> Hangup in w.toAlice)
    && (w.b.ended == AliceHungUp ==> w.a.disconnectDone)
    && (w.a.disconnectDone && w.b.ended == Up ==> w.toBob != [] && w.toBob[|w.toBob| - 1] == Bye)
    && (Distinguishable(k) ==> Agreement(k, w))
  }

  // What Bob has counted plus what is on its way to him is what Alice has counted; once she
  // has hung up, it is the complete script.
  ghost predicate Agreement(k: Setup, w: World) {
    var on, off := w.b.onhold + Holds(k, w.toBob), w.b.offhold + Offers(w.toBob) - Holds(k, w.toBob);
    && (w.b.ended == Up && !w.a.disconnectDone ==> on == w.a.onhold && off == w.a.offhold)
    && (w.b.ended == Up && w.a.disconnectDone ==> on == 3 && off == 2)
    && (w.b.ended == AliceHungUp ==> w.b.onhold == 3 && w.b.offhold == 2)
  }

  lemma InitialInv(k: Setup, w: World)
    requires Initial(k, w)
    ensures Inv(k, w)
  {
  }

  lemma FireReinviteInv(k: Setup, w: World)
    requires Inv(k, w) && Enabled(w, FireReinvite)
    ensures Inv(k, Next(k, w, FireReinvite))
  {
    if Distinguishable(k) { OffersToldApart(k); }
    ToBobAppend(k, w.toBob, HoldOffer(k, w.a));
  }

  lemma FireOffHoldInv(k: Setup, w: World)
    requires Inv(k, w) && Enabled(w, FireOffHold)
    ensures Inv(k, Next(k, w, FireOffHold))
  {
    ToBobAppend(k, w.toBob, ResumeOffer(k, w.a));
  }

  // The Bye goes out behind whatever is still under way; nothing of the script is left.
  lemma HangUpAliceInv(k: Setup, w: World)
    requires Inv(k, w) && Enabled(w, FireDisconnect) && SendsBye(w.a)
    ensures Inv(k, Next(k, w, FireDisconnect))
  {
    assert w.a.connectDone;
    assert w.toBob == [] || w.toBob == [w.toBob[0]];
    ToBobAppend(k, w.toBob, Bye);
  }

  lemma FireDisconnectInv(k: Setup, w: World)
    requires Inv(k, w) && Enabled(w, FireDisconnect)
    ensures Inv(k, Next(k, w, FireDisconnect))
  {
    if SendsBye(w.a) { HangUpAliceInv(k, w); }
  }

  lemma DeliverOfferInv(k: Setup, w: World, valid: bool)
    requires Inv(k, w) && w.toBob != [] && w.toBob[0].Offer? && w.b.ended == Up
    ensures Inv(k, Next(k, w, DeliverToBob(valid)))
  {
    ToAliceAppend(w.toAlice, Answer(valid));
    assert w.toBob[1..] == [] || w.toBob[1..] == [Bye];
    assert Offers(w.toBob[1..]) == 0 && w.toAlice == [];
  }

  lemma DeliverByeInv(k: Setup, w: World, valid: bool)
    requires Inv(k, w) && w.toBob != [] && w.toBob[0] == Bye
    ensures Inv(k, Next(k, w, DeliverToBob(valid)))
  {
    assert Bye in w.toBob && w.toBob[1..] == [];
    assert Offers(w.toBob) == 0 && Holds(k, w.toBob) == 0;
  }

  lemma DeliverToBobInv(k: Setup, w: World, valid: bool)
    requires Inv(k, w) && Enabled(w, DeliverToBob(valid))
    ensures Inv(k, Next(k, w, DeliverToBob(valid)))
  {
    if w.toBob[0] == Bye {
      DeliverByeInv(k, w, valid);
    } else if w.b.ended == Up {
      DeliverOfferInv(k, w, valid);
    }
  }

  lemma DeliverAnswerInv(k: Setup, w: World)
    requires Inv(k, w) && MaySend(w.a) && w.toAlice != [] && w.toAlice[0].Answer?
    ensures Inv(k, Next(k, w, DeliverToAlice))
  {
    var rest := w.toAlice[1..];
    assert rest == [] || rest == [Hangup];
    assert Answers(rest) == 0 && w.a.inProgress;
    assert Ledger(RecvConnect(w.a, w.toAlice[0].valid));
  }

  lemma DeliverToAliceInv(k: Setup, w: World)
    requires Inv(k, w) && Enabled(w, DeliverToAlice)
    ensures Inv(k, Next(k, w, DeliverToAlice))
  {
    if MaySend(w.a) && w.toAlice[0].Answer? { DeliverAnswerInv(k, w); }
  }

  lemma HangUpBobInv(k: Setup, w: World)
    requires Inv(k, w) && Enabled(w, HangUpBob)
    ensures Inv(k, Next(k, w, HangUpBob))
  {
    ToAliceAppend(w.toAlice, Hangup);
  }

  lemma StepInv(k: Setup, w: World, s: Step)
    requires Inv(k, w) && Enabled(w, s)
    ensures Inv(k, Next(k, w, s))
  {
    match s
    case Establish =>
    case FireReinvite => FireReinviteInv(k, w);
    case FireOffHold => FireOffHoldInv(k, w);
    case FireDisconnect => FireDisconnectInv(k, w);
    case DeliverToBob(valid) => DeliverToBobInv(k, w, valid);
    case DeliverToAlice => DeliverToAliceInv(k, w);
    case HangUpBob => HangUpBobInv(k, w);
  }

  lemma {:induction false} RunInv(k: Setup, ws: seq<World>, steps: seq<Step>)
    requires IsRun(k, ws, steps)
    ensures Inv(k, ws[|steps|])
    decreases |steps|
  {
    if steps == [] {
      InitialInv(k, ws[0]);
    } else {
      var n := |steps| - 1;
      RunInv(k, ws[..|steps|], steps[..n]);
      StepInv(k, ws[n], steps[n]);
    }
  }

  // --------------------------------------------------------------------- the theorems

  predicate Sends(w: World, s: Step) {
    (s == FireReinvite || s == FireOffHold) && MaySend(w.a)
  }

  // Section 14.1 of RFC 3261, in every run: a re-INVITE is sent only when no earlier one is
  // in progress, and the script's accounts are balanced.
  lemma OneInviteAtATime(k: Setup, ws: seq<World>, steps: seq<Step>, s: Step)
    requires IsRun(k, ws, steps) && Enabled(ws[|steps|], s) && Sends(ws[|steps|], s)
    ensures var w := ws[|steps|];
            && InFlight(w) == 0 && !w.a.inProgress
            && InFlight(Next(k, w, s)) <= 1
            && Ledger(w.a)
  {
    RunInv(k, ws, steps);
    StepInv(k, ws[|steps|], s);
  }

  // Offers that look alike to Bob, and the counter of his that stays at 0.
  ghost predicate Alike(k: Setup, w: World) {
    && (forall m | m in w.toBob && m.Offer? :: m.body == k.lSDP || m.body == Held(k.lSDP, k.atype))
    && (if k.lSDP == [] then w.b.onhold == 0 else w.b.offhold == 0)
  }

  lemma StepAlike(k: Setup, w: World, s: Step)
    requires NullIsOnHold(k) && !Distinguishable(k) && Alike(k, w) && Enabled(w, s)
    ensures Alike(k, Next(k, w, s))
  {
    OffersToldApart(k);
    AlikeCount(k);
    if s.DeliverToBob? { assert w.toBob[0] in w.toBob; }
  }

  lemma AlikeCount(k: Setup)
    requires NullIsOnHold(k) && !Distinguishable(k)
    ensures CountsAsHold(k, k.lSDP) == CountsAsHold(k, Held(k.lSDP, k.atype)) == (k.lSDP != [])
  {
    OffersToldApart(k);
  }

  lemma {:induction false} RunAlike(k: Setup, ws: seq<World>, steps: seq<Step>)
    requires IsRun(k, ws, steps) && NullIsOnHold(k) && !Distinguishable(k)
    ensures Alike(k, ws[|steps|])
    decreases |steps|
  {
    if steps != [] {
      var n := |steps| - 1;
      RunAlike(k, ws[..|steps|], steps[..n]);
      StepAlike(k, ws[n], steps[n]);
    }
  }

  // When Bob processes Alice's Bye he has seen three offers to hold and two to resume, so that
  // his alldone() adds no error, exactly when the two kinds of offer look different to him.
  lemma BobSeesTheWholeScript(k: Setup, ws: seq<World>, steps: seq<Step>)
    requires IsRun(k, ws, steps) && NullIsOnHold(k)
    requires ws[|steps|].b.ended == AliceHungUp
    ensures CountsComplete(ws[|steps|].b.onhold, ws[|steps|].b.offhold) <==> Distinguishable(k)
  {
    RunInv(k, ws, steps);
    if !Distinguishable(k) { RunAlike(k, ws, steps); }
  }

  // An exhausted schedule with nothing pending means the script is complete.
  lemma ExhaustedMeansComplete(k: Setup, ws: seq<World>, steps: seq<Step>)
    requires IsRun(k, ws, steps) && MaySend(ws[|steps|].a)
    ensures var a := ws[|steps|].a;
            a.sched == [] && Pending(a) == 0 <==> CountsComplete(a.onhold, a.offhold)
  {
    RunInv(k, ws, steps);
  }

  predicate Productive(s: Step) {
    s == FireReinvite || s == FireOffHold || s.DeliverToBob? || s == DeliverToAlice
  }

  ghost predicate SomethingDue(w: World) {
    exists s :: Productive(s) && Enabled(w, s)
  }

  // Undisturbed: connected, nobody hung up, every answer so far was valid.
  predicate Undisturbed(w: World) {
    MaySend(w.a) && w.b.ended == Up && w.a.nerrs == 0
  }

  // Until the script is complete a timer or a delivery is due: Alice's polling disconnect
  // timer never waits for nothing.
  lemma NeverStuck(k: Setup, ws: seq<World>, steps: seq<Step>)
    requires IsRun(k, ws, steps) && Undisturbed(ws[|steps|])
    requires !CountsComplete(ws[|steps|].a.onhold, ws[|steps|].a.offhold)
    ensures SomethingDue(ws[|steps|])
  {
    RunInv(k, ws, steps);
    var w := ws[|steps|];
    assert Pending(w.a) > 0 || w.a.inProgress;
    if w.a.reinviteTimers > 0 {
      assert Enabled(w, FireReinvite);
    } else if w.a.offHoldTimers > 0 {
      assert Enabled(w, FireOffHold);
    } else if w.toBob != [] {
      assert Enabled(w, DeliverToBob(true));
    } else {
      assert Enabled(w, DeliverToAlice);
    }
  }

  // What is left of the script, in steps.
  function Remaining(w: World): int {
    3 * (5 - w.a.onhold - w.a.offhold) + 2 * Offers(w.toBob) + Answers(w.toAlice)
  }

  lemma SendingCounts(k: Setup, w: World, s: Step)
    requires Inv(k, w) && Undisturbed(w) && Enabled(w, s) && (s == FireReinvite || s == FireOffHold)
    ensures Remaining(Next(k, w, s)) < Remaining(w)
  {
    ToBobAppend(k, w.toBob, HoldOffer(k, w.a));
    ToBobAppend(k, w.toBob, ResumeOffer(k, w.a));
  }

  lemma DeliveryCounts(k: Setup, w: World, s: Step)
    requires Inv(k, w) && Undisturbed(w) && Enabled(w, s) && (s.DeliverToBob? || s == DeliverToAlice)
    ensures Remaining(Next(k, w, s)) < Remaining(w)
  {
    if s.DeliverToBob? {
      ToAliceAppend(w.toAlice, Answer(s.valid));
      assert w.toBob[0] in w.toBob;
    } else {
      assert w.toAlice[0] in w.toAlice;
    }
  }

  lemma RemainingBounded(k: Setup, w: World)
    requires Inv(k, w) && MaySend(w.a)
    ensures 0 <= Remaining(w) <= 15
  {
    assert Remaining(w) >= 2 * Offers(w.toBob) + Answers(w.toAlice) >= 0;
  }

  // Each productive step brings the end nearer, so at most fifteen are taken.
  lemma EachStepCounts(k: Setup, ws: seq<World>, steps: seq<Step>, s: Step)
    requires IsRun(k, ws, steps) && Undisturbed(ws[|steps|]) && Productive(s) && Enabled(ws[|steps|], s)
    ensures 0 <= Remaining(Next(k, ws[|steps|], s)) < Remaining(ws[|steps|]) <= 15
  {
    var w := ws[|steps|];
    RunInv(k, ws, steps);
    StepInv(k, w, s);
    RemainingBounded(k, w);
    StaysInCall(k, w, s);
    RemainingBounded(k, Next(k, w, s));
    if s == FireReinvite || s == FireOffHold {
      SendingCounts(k, w, s);
    } else {
      DeliveryCounts(k, w, s);
    }
  }

  lemma StaysInCall(k: Setup, w: World, s: Step)
    requires Inv(k, w) && Undisturbed(w) && Productive(s) && Enabled(w, s)
    ensures MaySend(Next(k, w, s).a)
  {
    if s == DeliverToAlice { assert w.toAlice[0] in w.toAlice; }
  }

  function Productives(steps: seq<Step>): nat {
    if steps == [] then 0
    else Productives(steps[..|steps| - 1]) + if Productive(steps[|steps| - 1]) then 1 else 0
  }

  lemma ProductivesSnoc(steps: seq<Step>, from: nat)
    requires from < |steps|
    ensures var n := |steps| - 1;
            Productives(steps[from..]) == Productives(steps[..n][from..]) + if Productive(steps[n]) then 1 else 0
  {
    var n := |steps| - 1;
    assert steps[from..][..n - from] == steps[..n][from..];
  }

  lemma LastStepCounts(k: Setup, ws: seq<World>, steps: seq<Step>)
    requires IsRun(k, ws, steps) && steps != [] && Undisturbed(ws[|steps| - 1]) && Undisturbed(ws[|steps|])
    ensures var n := |steps| - 1;
            Remaining(ws[n + 1]) + (if Productive(steps[n]) then 1 else 0) <= Remaining(ws[n])
  {
    var n := |steps| - 1;
    if Productive(steps[n]) {
      EachStepCounts(k, ws[..|steps|], steps[..n], steps[n]);
    } else {
      assert steps[n] == FireDisconnect;
    }
  }

  // While the call goes on undisturbed, from any moment on at most fifteen productive steps
  // are taken, however often the disconnect timer polls in between.  So the polling ends,
  // provided that what is due eventually happens (see EndlessIsUnfair).
  lemma {:induction false} ScriptEnds(k: Setup, ws: seq<World>, steps: seq<Step>, from: nat)
    requires IsRun(k, ws, steps) && from <= |steps|
    requires forall i | from <= i <= |steps| :: Undisturbed(ws[i])
    ensures Productives(steps[from..]) + Remaining(ws[|steps|]) <= Remaining(ws[from])
    ensures 0 <= Remaining(ws[|steps|]) && Remaining(ws[from]) <= 15
    decreases |steps| - from
  {
    RunInv(k, ws, steps);
    RemainingBounded(k, ws[|steps|]);
    if from < |steps| {
      ScriptEnds(k, ws[..|steps|], steps[..|steps| - 1], from);
      ProductivesSnoc(steps, from);
      LastStepCounts(k, ws, steps);
    }
  }

  // A call that never ends, step by step.
  ghost predicate IsEndless(k: Setup, w: nat -> World, s: nat -> Step) {
    && Initial(k, w(0))
    && forall i: nat :: Enabled(w(i), s(i)) && w(i + 1) == Next(k, w(i), s(i))
  }

  lemma EndlessPrefix(k: Setup, w: nat -> World, s: nat -> Step, n: nat) returns (ws: seq<World>, steps: seq<Step>)
    requires IsEndless(k, w, s)
    ensures IsRun(k, ws, steps) && |steps| == n
    ensures forall i | 0 <= i <= n :: ws[i] == w(i)
    ensures forall i | 0 <= i < n :: steps[i] == s(i)
  {
    ws, steps := seq(n + 1, i requires 0 <= i => w(i)), seq(n, i requires 0 <= i => s(i));
    forall i | 0 <= i < n ensures Enabled(ws[i], steps[i]) && ws[i + 1] == Next(k, ws[i], steps[i]) {
      assert w(i + 1) == Next(k, w(i), s(i));
    }
  }

  lemma RemainingFalls(k: Setup, w: nat -> World, s: nat -> Step, from: nat, n: nat)
    requires IsEndless(k, w, s) && from <= n && forall i: nat | from <= i :: Undisturbed(w(i))
    ensures 0 <= Remaining(w(n + 1)) <= Remaining(w(n)) <= Remaining(w(from))
    ensures Productive(s(n)) ==> Remaining(w(n + 1)) < Remaining(w(n))
  {
    var ws, steps := EndlessPrefix(k, w, s, n);
    ScriptEnds(k, ws, steps, from);
    if Productive(s(n)) { EachStepCounts(k, ws, steps, s(n)); }
    ws, steps := EndlessPrefix(k, w, s, n + 1);
    ScriptEnds(k, ws, steps, n);
  }

  lemma {:induction false} LastProductive(k: Setup, w: nat -> World, s: nat -> Step, from: nat) returns (last: nat)
    requires IsEndless(k, w, s) && forall i: nat | from <= i :: Undisturbed(w(i))
    ensures from <= last && forall i: nat | last <= i :: !Productive(s(i))
    decreases Remaining(w(from))
  {
    RemainingFalls(k, w, s, from, from);
    last := from;
    if n: nat :| from <= n && Productive(s(n)) {
      RemainingFalls(k, w, s, from, n);
      last := LastProductive(k, w, s, n + 1);
    }
  }

  // The polling goes on forever in one way only: from some moment on, at every moment, a
  // timer or a delivery is due and never taken.
  lemma EndlessIsUnfair(k: Setup, w: nat -> World, s: nat -> Step, from: nat) returns (last: nat)
    requires IsEndless(k, w, s) && forall i: nat | from <= i :: Undisturbed(w(i))
    ensures from <= last
    ensures forall i: nat | last <= i :: OnlyPolls(w(i), s(i))
  {
    last := LastProductive(k, w, s, from);
    forall i: nat | last <= i ensures OnlyPolls(w(i), s(i)) {
      StillDue(k, w, s, i);
    }
  }

  ghost predicate OnlyPolls(w: World, s: Step) {
    s == FireDisconnect && SomethingDue(w)
  }

  lemma StillDue(k: Setup, w: nat -> World, s: nat -> Step, i: nat)
    requires IsEndless(k, w, s) && Undisturbed(w(i)) && Undisturbed(w(i + 1)) && !Productive(s(i))
    ensures OnlyPolls(w(i), s(i))
  {
    var ws, steps := EndlessPrefix(k, w, s, i);
    assert Enabled(w(i), s(i)) && w(i + 1) == Next(k, w(i), s(i));
    NeverStuck(k, ws, steps);
  }

  // ------------------------------------------------------ answers that fail the check

  // Bob's answer to one of the first four offers will not pass Alice's check.
  predicate FailsEarly(w: World, s: Step) {
    s == DeliverToBob(false) && w.b.ended == Up && w.toBob != [] && w.toBob[0].Offer? && w.b.nupdates < 4
  }

  ghost predicate FailedEarly(ws: seq<World>, steps: seq<Step>) {
    exists i :: 0 <= i < |steps| && i < |ws| && FailsEarly(ws[i], steps[i])
  }

  function Sum(a: Alice): nat {
    a.onhold + a.offhold
  }

  predicate BadAnswerDue(w: World) {
    w.toAlice != [] && w.toAlice[0] == Answer(false)
  }

  // What an early failure leads to: Alice has counted an error, or is about to, and is stuck
  // below five offers.
  ghost predicate Fate(w: World, early: bool) {
    && (w.a.disconnectDone && w.b.ended != BobHungUp ==> !early)
    && (MaySend(w.a) ==> (early <==> Sum(w.a) < 5 && (w.a.nerrs > 0 || BadAnswerDue(w))))
    && (!w.a.connectDone ==> !early && w.b.nupdates == 0)
    && (w.b.ended == Up && w.a.connectDone ==>
          w.b.nupdates + Offers(w.toBob) == if w.a.disconnectDone then 5 else Sum(w.a))
  }

  lemma FateOfReinvite(k: Setup, w: World, early: bool)
    requires Inv(k, w) && Fate(w, early) && Enabled(w, FireReinvite)
    ensures Fate(Next(k, w, FireReinvite), early)
  {
    ToBobAppend(k, w.toBob, HoldOffer(k, w.a));
  }

  lemma FateOfOffHold(k: Setup, w: World, early: bool)
    requires Inv(k, w) && Fate(w, early) && Enabled(w, FireOffHold)
    ensures Fate(Next(k, w, FireOffHold), early)
  {
    ToBobAppend(k, w.toBob, ResumeOffer(k, w.a));
  }

  lemma FateOfDisconnect(k: Setup, w: World, early: bool)
    requires Inv(k, w) && Fate(w, early) && Enabled(w, FireDisconnect)
    ensures Fate(Next(k, w, FireDisconnect), early)
  {
    ToBobAppend(k, w.toBob, Bye);
  }

  lemma FateOfOffer(k: Setup, w: World, valid: bool, early: bool)
    requires Inv(k, w) && Fate(w, early) && Enabled(w, DeliverToBob(valid))
    ensures Fate(Next(k, w, DeliverToBob(valid)), early || FailsEarly(w, DeliverToBob(valid)))
  {
    if w.toBob[0].Offer? && MaySend(w.a) && w.b.ended == Up {
      assert Answers(w.toAlice) == 0 && w.toAlice == [];
    }
  }

  lemma FateOfAnswer(k: Setup, w: World, early: bool)
    requires Inv(k, w) && Fate(w, early) && Enabled(w, DeliverToAlice)
    ensures Fate(Next(k, w, DeliverToAlice), early)
  {
    assert w.toAlice[0] in w.toAlice;
  }

  lemma StepFate(k: Setup, w: World, s: Step, early: bool)
    requires Inv(k, w) && Fate(w, early) && Enabled(w, s)
    ensures Fate(Next(k, w, s), early || FailsEarly(w, s))
  {
    match s
    case FireReinvite => FateOfReinvite(k, w, early);
    case FireOffHold => FateOfOffHold(k, w, early);
    case FireDisconnect => FateOfDisconnect(k, w, early);
    case DeliverToBob(valid) => FateOfOffer(k, w, valid, early);
    case DeliverToAlice => FateOfAnswer(k, w, early);
    case Establish =>
    case HangUpBob =>
  }

  lemma {:induction false} RunFate(k: Setup, ws: seq<World>, steps: seq<Step>)
    requires IsRun(k, ws, steps)
    ensures Fate(ws[|steps|], FailedEarly(ws, steps))
    decreases |steps|
  {
    if steps != [] {
      var n := |steps| - 1;
      RunInv(k, ws[..|steps|], steps[..n]);
      RunFate(k, ws[..|steps|], steps[..n]);
      StepFate(k, ws[n], steps[n], FailedEarly(ws[..|steps|], steps[..n]));
      FailedEarlySnoc(ws, steps);
    }
  }

  lemma FailedEarlySnoc(ws: seq<World>, steps: seq<Step>)
    requires steps != [] && |ws| == |steps| + 1
    ensures var n := |steps| - 1;
            FailedEarly(ws, steps) <==> FailedEarly(ws[..|steps|], steps[..n]) || FailsEarly(ws[n], steps[n])
  {
    var n := |steps| - 1;
    var vs, front := ws[..|steps|], steps[..n];
    forall i | 0 <= i < n && FailsEarly(vs[i], front[i]) ensures FailedEarly(ws, steps) {
      assert FailsEarly(ws[i], steps[i]);
    }
    forall i | 0 <= i < |steps| && FailsEarly(ws[i], steps[i]) ensures i == n || FailedEarly(vs, front) {
      if i < n { assert FailsEarly(vs[i], front[i]); }
    }
  }

  // When all that was due has been taken and Bob has not hung up, Alice has sent her Bye, or
  // sends it the next time she polls, exactly when the first four answers passed her check.
  lemma ByeExactly(k: Setup, ws: seq<World>, steps: seq<Step>)
    requires IsRun(k, ws, steps)
    requires ws[|steps|].a.connectDone && ws[|steps|].b.ended != BobHungUp && !SomethingDue(ws[|steps|])
    ensures ws[|steps|].a.disconnectDone || SendsBye(ws[|steps|].a) <==> !FailedEarly(ws, steps)
  {
    var w := ws[|steps|];
    RunInv(k, ws, steps);
    RunFate(k, ws, steps);
    assert !Enabled(w, FireReinvite) && !Enabled(w, FireOffHold) && !Enabled(w, DeliverToAlice);
    assert !Enabled(w, DeliverToBob(true));
  }

  // And at any moment: once an answer to one of the first four offers has failed, or will,
  // Alice sends no Bye, however often she polls.
  lemma NoByeAfterFailure(k: Setup, ws: seq<World>, steps: seq<Step>)
    requires IsRun(k, ws, steps) && FailedEarly(ws, steps)
    ensures !SendsBye(ws[|steps|].a) && ws[|steps|].b.ended != AliceHungUp
  {
    RunInv(k, ws, steps);
    RunFate(k, ws, steps);
  }

  // ---------------------------------------------------------------- origin versions

  // The i-th offer of the script: to hold and to resume in turn, each resumption with the
  // version the hold before it had.
  function NthOffer(k: Setup, i: nat): ToBob {
    Offer(if i % 2 == 0 then Held(k.lSDP, k.atype) else k.lSDP,
          k.version + 1 + if k.adopts then i / 2 else 0)
  }

  ghost predicate IsScript(k: Setup, sent: seq<ToBob>) {
    forall i | 0 <= i < |sent| :: sent[i] == NthOffer(k, i)
  }

  ghost predicate VersionBooks(k: Setup, w: World) {
    && IsScript(k, w.sent)
    && (!w.a.connectDone ==> w.sent == [] && w.a.version == k.version)
    && (MaySend(w.a) ==>
          && |w.sent| == w.a.onhold + w.a.offhold
          && w.a.version == k.version + if k.adopts then w.a.offhold else 0)
  }

  lemma OfferOfKind(k: Setup, a: Alice, holds: nat, resumes: nat)
    requires a.version == k.version + if k.adopts then resumes else 0
    ensures holds == resumes ==> HoldOffer(k, a) == NthOffer(k, holds + resumes)
    ensures holds == resumes + 1 ==> ResumeOffer(k, a) == NthOffer(k, holds + resumes)
  {
    if holds == resumes {
      assert (holds + resumes) % 2 == 0 && (holds + resumes) / 2 == resumes;
    } else if holds == resumes + 1 {
      assert (holds + resumes) % 2 == 1 && (holds + resumes) / 2 == resumes;
    }
  }

  lemma HoldVersions(k: Setup, w: World)
    requires Ledger(w.a) && MaySend(w.a) && VersionBooks(k, w) && Enabled(w, FireReinvite)
    ensures VersionBooks(k, Next(k, w, FireReinvite))
  {
    OfferOfKind(k, w.a, w.a.onhold, w.a.offhold);
    assert Next(k, w, FireReinvite).sent == w.sent + [HoldOffer(k, w.a)];
  }

  lemma ResumeVersions(k: Setup, w: World)
    requires Ledger(w.a) && MaySend(w.a) && VersionBooks(k, w) && Enabled(w, FireOffHold)
    ensures VersionBooks(k, Next(k, w, FireOffHold))
  {
    OfferOfKind(k, w.a, w.a.onhold, w.a.offhold);
    assert Next(k, w, FireOffHold).sent == w.sent + [ResumeOffer(k, w.a)];
  }

  lemma StepVersions(k: Setup, w: World, s: Step)
    requires Inv(k, w) && VersionBooks(k, w) && Enabled(w, s)
    ensures VersionBooks(k, Next(k, w, s))
  {
    if MaySend(w.a) && s == FireReinvite {
      HoldVersions(k, w);
    } else if MaySend(w.a) && s == FireOffHold {
      ResumeVersions(k, w);
    } else {
      assert Next(k, w, s).sent == w.sent;
    }
  }

  lemma {:induction false} RunVersions(k: Setup, ws: seq<World>, steps: seq<Step>)
    requires IsRun(k, ws, steps)
    ensures VersionBooks(k, ws[|steps|])
    decreases |steps|
  {
    if steps != [] {
      var n := |steps| - 1;
      RunInv(k, ws[..|steps|], steps[..n]);
      RunVersions(k, ws[..|steps|], steps[..n]);
      StepVersions(k, ws[n], steps[n]);
    }
  }

  // Section 8 of RFC 3264 wants the version raised by one with every offer that changes the
  // body.  Every offer of this script changes it, and the version goes up exactly from a
  // resumption to the next hold, and then only if the user agent takes over offered bodies.
  lemma VersionsExactly(k: Setup, ws: seq<World>, steps: seq<Step>, i: nat)
    requires IsRun(k, ws, steps) && Distinguishable(k) && i + 1 < |ws[|steps|].sent|
    ensures var a, b := ws[|steps|].sent[i], ws[|steps|].sent[i + 1];
            && a.Offer? && b.Offer? && a.body != b.body
            && b.version == a.version + if k.adopts && i % 2 == 1 then 1 else 0
  {
    RunVersions(k, ws, steps);
    OffersToldApart(k);
  }

  lemma Extend(k: Setup, ws: seq<World>, steps: seq<Step>, s: Step) returns (vs: seq<World>, more: seq<Step>)
    requires IsRun(k, ws, steps) && Enabled(ws[|steps|], s)
    ensures more == steps + [s] && vs == ws + [Next(k, ws[|steps|], s)] && IsRun(k, vs, more)
  {
    more, vs := steps + [s], ws + [Next(k, ws[|steps|], s)];
  }

  // The first hold goes out and is answered; the timer to resume is armed.
  lemma HeldOnce(k: Setup, start: World) returns (ws: seq<World>, steps: seq<Step>)
    requires Initial(k, start)
    ensures IsRun(k, ws, steps) && ws[0] == start
    ensures var w := ws[|steps|];
            && w.a.offHoldTimers == 1 && MaySend(w.a) && w.a.version == k.version
            && w.sent == [Offer(Held(k.lSDP, k.atype), k.version + 1)]
  {
    ws, steps := Extend(k, [start], [], Establish);
    ws, steps := Extend(k, ws, steps, FireReinvite);
    assert ws[2].toBob == [HoldOffer(k, ws[1].a)];
    ws, steps := Extend(k, ws, steps, DeliverToBob(true));
    assert ws[3].toAlice == [Answer(true)];
    ws, steps := Extend(k, ws, steps, DeliverToAlice);
  }

  // And it does come to that: a run that resumes once has made two offers with one version.
  lemma VersionRepeated(k: Setup, start: World) returns (ws: seq<World>, steps: seq<Step>)
    requires Initial(k, start)
    ensures IsRun(k, ws, steps) && ws[0] == start
    ensures ws[|steps|].sent == [Offer(Held(k.lSDP, k.atype), k.version + 1), Offer(k.lSDP, k.version + 1)]
  {
    ws, steps := HeldOnce(k, start);
    ws, steps := Extend(k, ws, steps, FireOffHold);
  }
}
