// The two parties of the on-hold script as objects whose handlers update their fields.
// Each handler is proved to be the step of OnHoldProtocol it stands for.
module OnHoldParties {
  import opened Wrappers
  import opened Sdp
  import opened OnHoldProtocol

  lemma {:induction false} WithoutAttrAbsent(attrs: seq<string>, a: string)
    requires a !in attrs
    ensures WithoutAttr(attrs, a) == attrs
  {
    if attrs != [] { WithoutAttrAbsent(attrs[1..], a); }
  }

  lemma {:induction false} WithoutAttrRemove(attrs: seq<string>, i: nat, a: string)
    requires i < |attrs| && attrs[i] == a
    ensures WithoutAttr(attrs[..i] + attrs[i + 1..], a) == WithoutAttr(attrs, a)
  {
    if i > 0 {
      WithoutAttrRemove(attrs[1..], i - 1, a);
      assert (attrs[..i] + attrs[i + 1..])[1..] == attrs[1..][..i - 1] + attrs[1..][i..];
    } else {
      assert attrs[..0] + attrs[1..] == attrs[1..];
    }
  }

  // while a in attrs: attrs.remove(a), where remove takes out the first occurrence
  method RemoveAll(attrs: seq<string>, a: string) returns (left: seq<string>)
    ensures left == WithoutAttr(attrs, a) && a !in left
  {
    left := attrs;
    while a in left
      invariant WithoutAttr(left, a) == WithoutAttr(attrs, a)
      decreases |left|
    {
      var i := 0;
      while left[i] != a
        invariant 0 <= i < |left| && a in left[i..]
        decreases |left| - i
      {
        i := i + 1;
      }
      WithoutAttrRemove(left, i, a);
      left := left[..i] + left[i + 1..];
    }
    WithoutAttrAbsent(left, a);
  }

  class OnHoldAlice {
    const atype: Family
    const adopts: bool
    // ua.lSDP: its sections and the version in its origin line
    var lSDP: Body
    var version: nat
    var connectDone: bool
    var disconnectDone: bool
    var inProgress: bool
    var reinviteDone: bool
    var nerrs: nat
    var onhold: nat
    var offhold: nat
    var sched: seq<real>
    // armed timers: Timeout(self.reinvite, ...), Timeout(self.off_hold, ...), Timeout(self.disconnect, ...)
    var reinviteTimers: nat
    var offHoldTimers: nat
    var disconnectTimers: nat

    constructor (k: Setup, sched: seq<real>)
      requires |sched| == 4
      ensures Initial(k, World(State(), Bob(Up, 0, 0, 0), [], [], []))
      ensures Plays(k)
    {
      lSDP, version, atype, adopts, this.sched := k.lSDP, k.version, k.atype, k.adopts, sched;
      connectDone, disconnectDone, inProgress, reinviteDone := false, false, false, false;
      nerrs, onhold, offhold, reinviteTimers, offHoldTimers, disconnectTimers := 0, 0, 0, 0, 0, 0;
    }

    ghost function State(): Alice
      reads this
    {
      Alice(connectDone, disconnectDone, inProgress, reinviteDone, nerrs, onhold, offhold, sched, version,
            reinviteTimers, offHoldTimers, disconnectTimers)
    }

    // Between two handlers: the body is the one the call was set up with.
    ghost predicate Plays(k: Setup)
      reads this
    {
      lSDP == k.lSDP && atype == k.atype && adopts == k.adopts
    }

    // the conn_cbs callback, through test_reinvite.connected and a_test1.connected
    method ConnectedCallback()
      modifies this
      ensures State() == Connected(old(State())) && lSDP == old(lSDP)
    {
      disconnectTimers := disconnectTimers + 1;
      connectDone := true;
      reinviteTimers := reinviteTimers + 1;
    }

    // test_reinvite.reinvite with alter_port = False, as this script always calls it: offer a
    // copy of the current body with its version raised; the user agent may take it over
    method BaseReinvite() returns (sent: Option<ToBob>)
      modifies this`inProgress, this`lSDP, this`version
      ensures lSDP == old(lSDP)
      ensures sent == if old(MaySend(State())) then Some(Offer(old(lSDP), old(version) + 1)) else None
      ensures inProgress == (old(inProgress) || old(MaySend(State())))
      ensures version == if old(MaySend(State())) && adopts then old(version) + 1 else old(version)
    {
      if !connectDone || disconnectDone { return None; }
      var sdpBody, sdpVersion := lSDP, version;
      sdpVersion := sdpVersion + 1;
      inProgress := true;
      if adopts { lSDP, version := sdpBody, sdpVersion; }
      return Some(Offer(sdpBody, sdpVersion));
    }

    // the loop over the sections of the copied body
    method HoldBody() returns (body: Body)
      ensures body == Held(lSDP, atype) && PutOnHold(lSDP, atype, body)
    {
      body := lSDP;
      var n := |lSDP|;
      for i := 0 to n
        invariant |body| == n
        invariant forall k | 0 <= k < i :: body[k] == HoldLine(lSDP[k], atype)
        invariant forall k | i <= k < n :: body[k] == lSDP[k]
      {
        var addr := if atype == IP4 then "0.0.0.0" else "::";
        var attrs := RemoveAll(body[i].attrs, "sendrecv");
        body := body[i := Line(addr, attrs)];
      }
      HeldExactly(lSDP, atype);
    }

    method FireReinvite() returns (sent: Option<ToBob>)
      modifies this
      ensures State() == Reinvite(old(State())) && lSDP == old(lSDP)
      ensures sent == if MaySend(old(State())) then Some(Offer(Held(lSDP, atype), version + 1)) else None
      ensures connectDone && !disconnectDone ==>
                sent.Some? && sent.value.Offer? && PutOnHold(lSDP, atype, sent.value.body)
    {
      if !connectDone || disconnectDone { return None; }
      var backup, backupVersion := lSDP, version;
      lSDP := HoldBody();
      sent := BaseReinvite();
      onhold := onhold + 1;
      lSDP, version := backup, backupVersion;
    }

    method FireOffHold(ghost k: Setup) returns (sent: Option<ToBob>)
      requires Plays(k)
      modifies this
      ensures State() == OffHold(k, old(State())) && lSDP == old(lSDP)
      ensures offhold == old(offhold) + 1 && onhold == old(onhold)
      ensures sent == if MaySend(old(State())) then Some(Offer(lSDP, old(version) + 1)) else None
    {
      sent := BaseReinvite();
      offhold := offhold + 1;
    }

    method OnReinviteConnected()
      modifies this`sched, this`offHoldTimers, this`reinviteTimers
      ensures State() == NextTimer(old(State()))
    {
      if |sched| > 0 {
        if onhold > offhold {
          offHoldTimers := offHoldTimers + 1;
        } else {
          reinviteTimers := reinviteTimers + 1;
        }
        sched := sched[..|sched| - 1];
      }
    }

    // recvEvent on a Connect event; a body that fails validation raises out of the handler
    method RecvConnectEvent(valid: bool)
      modifies this
      ensures State() == RecvConnect(old(State()), valid) && lSDP == old(lSDP)
    {
      var wasInProgress := inProgress;
      if wasInProgress { inProgress := false; }
      if !valid {
        nerrs := nerrs + 1;
        return;
      }
      if wasInProgress {
        reinviteDone := true;
        OnReinviteConnected();
      }
    }

    // recvEvent on a Disconnect event and the disc_cbs callback with origin 'callee'
    method RecvDisconnect()
      modifies this
      ensures State() == RecvHangup(old(State())) && lSDP == old(lSDP)
      ensures disconnectDone && nerrs == old(nerrs) + if inProgress then 2 else 0
    {
      if inProgress {
        nerrs := nerrs + 1;
        nerrs := nerrs + 1;
      }
      disconnectDone := true;
    }

    // sending the Bye runs the disc_cbs callback with origin 'switch'
    method FireDisconnect() returns (sent: Option<ToBob>)
      modifies this
      ensures State() == Disconnect(old(State())) && lSDP == old(lSDP)
      ensures sent == if SendsBye(old(State())) then Some(Bye) else None
    {
      if disconnectDone { return None; }
      if onhold != 3 || offhold != 2 {
        disconnectTimers := disconnectTimers + 1;
        return None;
      }
      disconnectDone := true;
      return Some(Bye);
    }
  }

  class OnHoldBob {
    const onHold: Line -> bool
    var ended: Ending
    var onhold: nat
    var offhold: nat
    var nupdates: nat
    var nerrs: nat

    constructor (k: Setup)
      ensures State() == Bob(Up, 0, 0, 0) && nerrs == 0 && onHold == k.onHold
    {
      onHold, ended, onhold, offhold, nupdates, nerrs := k.onHold, Up, 0, 0, 0, 0;
    }

    ghost function State(): Bob
      reads this
    {
      Bob(ended, onhold, offhold, nupdates)
    }

    // recvEvent on an Update event: the last section decides
    method RecvUpdateEvent(ghost k: Setup, body: Body)
      requires onHold == k.onHold
      modifies this
      ensures State() == RecvUpdate(k, old(State()), body) && nerrs == old(nerrs)
      ensures nupdates == old(nupdates) + 1 && onhold + offhold == old(onhold) + old(offhold) + 1
      ensures onhold > old(onhold) <==> body != [] && onHold(body[|body| - 1])
    {
      var hold := false;
      for i := 0 to |body|
        invariant hold == CountsAsHold(k, body[..i])
        invariant State() == old(State()) && nerrs == old(nerrs)
      {
        hold := onHold(body[i]);
      }
      assert body[..|body|] == body;
      if hold { onhold := onhold + 1; } else { offhold := offhold + 1; }
      nupdates := nupdates + 1;
    }

    // the check alldone() makes before it hands over to the common verdict
    method CheckCounts()
      modifies this`nerrs
      ensures nerrs == old(nerrs) + if onhold == 3 && offhold == 2 then 0 else 1
    {
      if onhold != 3 || offhold != 2 { nerrs := nerrs + 1; }
    }
  }

  // A choice that is due is taken, another is passed over.
  function Taken(k: Setup, w: World, s: Step): World {
    if Enabled(w, s) then Next(k, w, s) else w
  }

  lemma TakenStep(k: Setup, w: World, s: Step)
    requires Inv(k, w) && VersionBooks(k, w)
    ensures Inv(k, Taken(k, w, s)) && VersionBooks(k, Taken(k, w, s))
  {
    if Enabled(w, s) {
      StepInv(k, w, s);
      StepVersions(k, w, s);
    }
  }

  // The two objects and the two directions of the channel between them.
  class Dialog {
    const alice: OnHoldAlice
    const bob: OnHoldBob
    var toBob: seq<ToBob>
    var toAlice: seq<ToAlice>
    var sent: seq<ToBob>

    constructor (k: Setup, sched: seq<real>)
      requires |sched| == 4
      ensures fresh(alice) && fresh(bob) && Playing(k) && Initial(k, State())
    {
      alice := new OnHoldAlice(k, sched);
      bob := new OnHoldBob(k);
      toBob, toAlice, sent := [], [], [];
    }

    ghost function State(): World
      reads this, alice, bob
    {
      World(alice.State(), bob.State(), toBob, toAlice, sent)
    }

    ghost predicate Playing(k: Setup)
      reads this, alice, bob
    {
      alice.Plays(k) && bob.onHold == k.onHold && bob.nerrs == 0
    }

    method Post(m: Option<ToBob>)
      modifies this`toBob, this`sent
      ensures m.None? ==> toBob == old(toBob) && sent == old(sent)
      ensures m.Some? ==> toBob == old(toBob) + [m.value]
      ensures m.Some? ==> sent == if m.value.Offer? then old(sent) + [m.value] else old(sent)
    {
      if m.Some? {
        toBob := toBob + [m.value];
        if m.value.Offer? { sent := sent + [m.value]; }
      }
    }

    // The timers of Alice's.
    method FireReinviteTimer(ghost k: Setup)
      requires Playing(k) && alice.reinviteTimers > 0
      modifies this, alice
      ensures Playing(k) && State() == Next(k, old(State()), FireReinvite)
    {
      alice.reinviteTimers := alice.reinviteTimers - 1;
      var m := alice.FireReinvite();
      Post(m);
    }

    method FireOffHoldTimer(ghost k: Setup)
      requires Playing(k) && alice.offHoldTimers > 0
      modifies this, alice
      ensures Playing(k) && State() == Next(k, old(State()), FireOffHold)
    {
      alice.offHoldTimers := alice.offHoldTimers - 1;
      var m := alice.FireOffHold(k);
      Post(m);
    }

    method FireDisconnectTimer(ghost k: Setup)
      requires Playing(k) && alice.disconnectTimers > 0
      modifies this, alice
      ensures Playing(k) && State() == Next(k, old(State()), FireDisconnect)
    {
      alice.disconnectTimers := alice.disconnectTimers - 1;
      var m := alice.FireDisconnect();
      Post(m);
    }

    // The first message under way to Bob arrives; a call he has given up is gone.
    method ReachBob(ghost k: Setup, valid: bool)
      requires Playing(k) && toBob != []
      modifies this, bob
      ensures Playing(k) && State() == Next(k, old(State()), DeliverToBob(valid))
    {
      var m := toBob[0];
      toBob := toBob[1..];
      if bob.ended == Up {
        match m
        case Offer(body, _) =>
          bob.RecvUpdateEvent(k, body);
          toAlice := toAlice + [Answer(valid)];
        case Bye =>
          bob.ended := AliceHungUp;
      }
    }

    method ReachAlice(ghost k: Setup)
      requires Playing(k) && toAlice != []
      modifies this, alice
      ensures Playing(k) && State() == Next(k, old(State()), DeliverToAlice)
    {
      var m := toAlice[0];
      toAlice := toAlice[1..];
      if !alice.disconnectDone {
        match m
        case Answer(valid) => alice.RecvConnectEvent(valid);
        case Hangup => alice.RecvDisconnect();
      }
    }

    // One choice of the event loops, network and clocks; one that is not due does nothing.
    method TakeStep(ghost k: Setup, s: Step)
      requires Playing(k)
      modifies this, alice, bob
      ensures Playing(k)
      ensures State() == Taken(k, old(State()), s)
    {
      match s
      case Establish =>
        if !alice.connectDone && !alice.disconnectDone { alice.ConnectedCallback(); }
      case FireReinvite =>
        if alice.reinviteTimers > 0 { FireReinviteTimer(k); }
      case FireOffHold =>
        if alice.offHoldTimers > 0 { FireOffHoldTimer(k); }
      case FireDisconnect =>
        if alice.disconnectTimers > 0 { FireDisconnectTimer(k); }
      case DeliverToBob(valid) =>
        if toBob != [] { ReachBob(k, valid); }
      case DeliverToAlice =>
        if toAlice != [] { ReachAlice(k); }
      case HangUpBob =>
        if bob.ended == Up {
          bob.ended := BobHungUp;
          toAlice := toAlice + [Hangup];
        }
    }
  }

  // The objects, played for any number of choices in any order: when it was Alice's Bye that
  // ended the call for Bob, his check of the counters finds nothing, and Alice's offers are
  // numbered as VersionsExactly says.
  method PlayScript(k: Setup, sched: seq<real>, choices: seq<Step>) returns (d: Dialog)
    requires |sched| == 4
    ensures fresh(d) && fresh(d.bob)
    ensures Distinguishable(k) && d.bob.ended == AliceHungUp ==> d.bob.nerrs == 0
    ensures d.bob.ended != AliceHungUp ==>
              (d.bob.nerrs == 0 <==> CountsComplete(d.bob.onhold, d.bob.offhold))
    ensures Inv(k, d.State()) && VersionBooks(k, d.State())
  {
    d := new Dialog(k, sched);
    InitialInv(k, d.State());
    for i := 0 to |choices|
      invariant fresh(d) && fresh(d.alice) && fresh(d.bob) && d.Playing(k)
      invariant Inv(k, d.State()) && VersionBooks(k, d.State())
    {
      TakenStep(k, d.State(), choices[i]);
      d.TakeStep(k, choices[i]);
    }
    ghost var w := d.State();
    d.bob.CheckCounts();
    assert d.State() == w;
  }
}
