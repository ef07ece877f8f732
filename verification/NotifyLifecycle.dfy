// Who owns what while RTPProxy notification connections come and go: descriptors, reactor
// registrations, notify blocks, saved tails and the rtpp_notify_fds list.
module NotifyLifecycle {
  import opened Wrappers

  type Fd = nat
  type Addr = nat

  // struct rtpp_notify
  datatype Notify = Notify(fd: Fd, remaining: Option<Addr>, linked: bool)

  datatype Table = Table(
    openFds: set<Fd>,          // connection descriptors not yet closed
    reactor: map<Fd, Addr>,    // descriptor -> the block the callback will be given
    blocks: map<Addr, Notify>, // live notify blocks
    tails: set<Addr>,          // live saved tails
    listed: seq<Addr>)         // rtpp_notify_fds, most recent first

  const EMPTY := Table({}, map[], map[], {}, [])

  // What the operating system and the allocator answer while a connection is accepted.
  datatype AcceptEnv = AcceptEnv(fd: Fd, nonblocking: bool, block: Option<Addr>,
                                 unixSocket: bool, nodeKnown: bool, registered: bool)

  // How one activation of the callback ends: everything released, or the connection kept
  // with the address of its new saved tail, if there is one.
  datatype Outcome = Release | Keep(tail: Option<Addr>)

  datatype Event = Accept(env: AcceptEnv) | Readable(fd: Fd, outcome: Outcome)

  predicate Accepted(e: AcceptEnv) {
    e.nonblocking && e.block.Some? && (e.unixSocket || e.nodeKnown) && e.registered
  }

  // Fresh descriptors and addresses are not in use; only registered descriptors wake up.
  predicate Possible(t: Table, ev: Event) {
    match ev
    case Accept(e) => e.fd !in t.openFds && (e.block.Some? ==> e.block.value !in t.blocks.Keys + t.tails)
    case Readable(fd, o) =>
      && fd in t.reactor && t.reactor[fd] in t.blocks
      && (o.Keep? && o.tail.Some? ==>
            o.tail.value !in t.blocks.Keys + (t.tails - Held(t.blocks[t.reactor[fd]].remaining)))
  }

  function Held(a: Option<Addr>): set<Addr> {
    if a.Some? then {a.value} else {}
  }

  function Without(xs: seq<Addr>, a: Addr): seq<Addr> {
    if xs == [] then []
    else if xs[0] == a then Without(xs[1..], a)
    else [xs[0]] + Without(xs[1..], a)
  }

  function Step(t: Table, ev: Event): Table
    requires Possible(t, ev)
  {
    match ev
    case Accept(e) =>
      if !Accepted(e) then t
      else
        var a := e.block.value;
        Table(t.openFds + {e.fd}, t.reactor[e.fd := a], t.blocks[a := Notify(e.fd, None, !e.unixSocket)],
              t.tails, if e.unixSocket then t.listed else [a] + t.listed)
    case Readable(fd, o) =>
      var a := t.reactor[fd];
      var n := t.blocks[a];
      var tails := t.tails - Held(n.remaining);
      match o
      case Release =>
        Table(t.openFds - {fd}, t.reactor - {fd}, t.blocks - {a}, tails,
              if n.linked then Without(t.listed, a) else t.listed)
      case Keep(tail) =>
        t.(blocks := t.blocks[a := n.(remaining := tail)], tails := tails + Held(tail))
  }

  // Registered exactly when open, each connection with its own live block.
  ghost predicate Registered(t: Table) {
    && t.reactor.Keys == t.openFds
    && (forall fd | fd in t.reactor :: t.reactor[fd] in t.blocks && t.blocks[t.reactor[fd]].fd == fd)
    && (forall a | a in t.blocks :: t.blocks[a].fd in t.reactor && t.reactor[t.blocks[a].fd] == a)
  }

  ghost predicate Owns(t: Table, a: Addr, tail: Addr) {
    a in t.blocks && t.blocks[a].remaining == Some(tail)
  }

  // Every live tail has exactly one owner, and what a block owns is live.
  ghost predicate TailsOwned(t: Table) {
    && t.tails !! t.blocks.Keys
    && (forall x | x in t.tails :: exists a :: Owns(t, a, x))
    && (forall a, x | Owns(t, a, x) :: x in t.tails)
    && (forall a, b, x | Owns(t, a, x) && Owns(t, b, x) :: a == b)
  }

  ghost predicate NoDup(xs: seq<Addr>) {
    forall i, j | 0 <= i < j < |xs| :: xs[i] != xs[j]
  }

  // The list holds the linked blocks, each once.
  ghost predicate Listed(t: Table) {
    && NoDup(t.listed)
    && forall a :: a in t.listed <==> a in t.blocks && t.blocks[a].linked
  }

  ghost predicate Consistent(t: Table) {
    Registered(t) && TailsOwned(t) && Listed(t)
  }

  lemma {:induction false} WithoutContents(xs: seq<Addr>, a: Addr)
    ensures forall x :: x in Without(xs, a) <==> x in xs && x != a
    ensures NoDup(xs) ==> NoDup(Without(xs, a))
  {
    if xs != [] {
      WithoutContents(xs[1..], a);
      assert xs == [xs[0]] + xs[1..];
      var ys := Without(xs[1..], a);
      if NoDup(xs) {
        assert NoDup(xs[1..]);
        assert xs[0] !in xs[1..];
        assert NoDup([xs[0]] + ys);
      }
    }
  }

  lemma {:induction false} WithoutAbsent(xs: seq<Addr>, a: Addr)
    requires a !in xs
    ensures Without(xs, a) == xs && Without([a] + xs, a) == xs
  {
    assert ([a] + xs)[1..] == xs;
    if xs != [] {
      WithoutAbsent(xs[1..], a);
    }
  }

  lemma AcceptTails(t: Table, e: AcceptEnv)
    requires TailsOwned(t) && Possible(t, Accept(e)) && Accepted(e)
    ensures TailsOwned(Step(t, Accept(e)))
  {
    var u := Step(t, Accept(e));
    assert forall b, x :: Owns(u, b, x) <==> Owns(t, b, x);
  }

  lemma AcceptConsistent(t: Table, e: AcceptEnv)
    requires Consistent(t) && Possible(t, Accept(e))
    ensures Consistent(Step(t, Accept(e)))
    ensures e.fd in Step(t, Accept(e)).openFds <==>
            e.nonblocking && e.block.Some? && (e.unixSocket || e.nodeKnown) && e.registered
    ensures e.fd in Step(t, Accept(e)).openFds ==>
              Step(t, Accept(e)).listed == if e.unixSocket then t.listed else [e.block.value] + t.listed
  {
    if Accepted(e) {
      AcceptTails(t, e);
      var u := Step(t, Accept(e));
      assert Registered(u);
      assert Listed(u);
    }
  }

  lemma ReadableTails(t: Table, fd: Fd, o: Outcome)
    requires TailsOwned(t) && Possible(t, Readable(fd, o))
    ensures TailsOwned(Step(t, Readable(fd, o)))
  {
    var u := Step(t, Readable(fd, o));
    var a := t.reactor[fd];
    assert forall b, x :: Owns(u, b, x) <==> if b == a then o == Keep(Some(x)) else Owns(t, b, x);
    forall x | x in u.tails ensures exists b :: Owns(u, b, x) {
      if o == Keep(Some(x)) {
        assert Owns(u, a, x);
      } else {
        var b :| Owns(t, b, x);
        assert Owns(u, b, x);
      }
    }
    forall b, x | Owns(u, b, x) ensures x in u.tails && (o == Keep(Some(x)) ==> b == a) {
      if b != a {
        assert t.blocks[a].remaining == Some(x) ==> Owns(t, a, x);
      }
    }
  }

  lemma ReadableConsistent(t: Table, fd: Fd, o: Outcome)
    requires Consistent(t) && Possible(t, Readable(fd, o))
    ensures Consistent(Step(t, Readable(fd, o)))
  {
    ReadableTails(t, fd, o);
    WithoutContents(t.listed, t.reactor[fd]);
    var u := Step(t, Readable(fd, o));
    assert Registered(u);
    assert Listed(u);
  }

  ghost predicate IsRun(ts: seq<Table>, evs: seq<Event>) {
    && |ts| == |evs| + 1 && ts[0] == EMPTY
    && forall i | 0 <= i < |evs| :: Possible(ts[i], evs[i]) && ts[i + 1] == Step(ts[i], evs[i])
  }

  // Over every sequence of accepts, data, errors and allocation or registration failures:
  // consistent throughout, and once the last connection is gone nothing is left behind.
  lemma {:induction false} RunConsistent(ts: seq<Table>, evs: seq<Event>)
    requires IsRun(ts, evs)
    ensures Consistent(ts[|evs|])
    ensures ts[|evs|].openFds == {} ==> ts[|evs|] == EMPTY
    decreases |evs|
  {
    var t := ts[|evs|];
    if evs != [] {
      var n := |evs| - 1;
      RunConsistent(ts[..|evs|], evs[..n]);
      match evs[n]
      case Accept(e) => AcceptConsistent(ts[n], e);
      case Readable(fd, o) => ReadableConsistent(ts[n], fd, o);
    }
    if t.openFds == {} { NothingLeft(t); }
  }

  // The i-th event accepts fd and no later one releases it.
  ghost predicate LiveSince(evs: seq<Event>, fd: Fd, i: nat) {
    && i < |evs| && evs[i].Accept? && evs[i].env.fd == fd
    && (var e := evs[i].env; e.nonblocking && e.block.Some? && (e.unixSocket || e.nodeKnown) && e.registered)
    && forall j | i < j < |evs| :: evs[j] != Readable(fd, Release)
  }

  // In every run a descriptor is open exactly when it was once accepted, on a non-blocking
  // socket, with memory for its block, from a known node or a unix socket, and registered --
  // and its connection has not been released since.
  lemma {:induction false} OpenExactly(ts: seq<Table>, evs: seq<Event>, fd: Fd)
    requires IsRun(ts, evs)
    ensures fd in ts[|evs|].openFds <==> exists i: nat :: LiveSince(evs, fd, i)
    decreases |evs|
  {
    if evs != [] {
      var n := |evs| - 1;
      OpenExactly(ts[..|evs|], evs[..n], fd);
      LiveSnoc(evs, fd);
      RunConsistent(ts[..|evs|], evs[..n]);
    }
  }

  lemma LiveSnoc(evs: seq<Event>, fd: Fd)
    requires evs != []
    ensures var n := |evs| - 1;
            (exists i: nat :: LiveSince(evs, fd, i)) <==>
            LiveSince(evs, fd, n) || (evs[n] != Readable(fd, Release) && exists i: nat :: LiveSince(evs[..n], fd, i))
  {
    var n := |evs| - 1;
    forall i: nat | i < n
      ensures LiveSince(evs, fd, i) <==> evs[n] != Readable(fd, Release) && LiveSince(evs[..n], fd, i)
    {
      assert forall j | i <= j < n :: evs[..n][j] == evs[j];
      if evs[n] != Readable(fd, Release) && LiveSince(evs[..n], fd, i) { assert evs[..n][i] == evs[i]; }
    }
  }

  lemma NonemptyHasMember(xs: seq<Addr>)
    ensures xs == [] || exists a :: a in xs
  {
    if xs != [] { assert xs[0] in xs; }
  }

  lemma NothingLeft(t: Table)
    requires Consistent(t) && t.openFds == {}
    ensures t == EMPTY
  {
    NonemptyHasMember(t.listed);
    assert forall a :: a !in t.blocks;
    assert forall a, x :: !Owns(t, a, x);
    assert t.tails == {} && t.listed == [];
  }

  // The listener process: the same, as the C functions do it, one release at a time.  The
  // preconditions of the releasing primitives rule out a double free, a free of something
  // never allocated, a double close and unlinking a block that is not on the list.
  class Listener {
    var openFds: set<Fd>
    var reactor: map<Fd, Addr>
    var blocks: map<Addr, Notify>
    var tails: set<Addr>
    var listed: seq<Addr>

    constructor ()
      ensures State() == EMPTY
    {
      openFds, reactor, blocks, tails, listed := {}, map[], map[], {}, [];
    }

    ghost function State(): Table
      reads this
    {
      Table(openFds, reactor, blocks, tails, listed)
    }

    method FreeNotify(a: Addr)
      requires a in blocks
      modifies this`blocks
      ensures blocks == old(blocks) - {a}
    {
      blocks := blocks - {a};
    }

    method FreeTail(x: Addr)
      requires x in tails
      modifies this`tails
      ensures tails == old(tails) - {x}
    {
      tails := tails - {x};
    }

    method CloseFd(fd: Fd)
      requires fd in openFds
      modifies this`openFds
      ensures openFds == old(openFds) - {fd}
    {
      openFds := openFds - {fd};
    }

    method ListDel(a: Addr)
      requires a in listed
      modifies this`listed
      ensures listed == Without(old(listed), a)
    {
      listed := Without(listed, a);
    }

    // rtpproxy_io_new_callback, from the descriptor accept() returned.  Leaving the inner
    // block is the jump to the err label.
    method IoNewCallback(e: AcceptEnv) returns (ok: bool)
      requires Possible(State(), Accept(e)) && Consistent(State())
      modifies this
      ensures State() == Step(old(State()), Accept(e)) && Consistent(State())
      ensures ok <==> e.fd in openFds
      ensures ok <==> e.nonblocking && e.block.Some? && (e.unixSocket || e.nodeKnown) && e.registered
    {
      AcceptConsistent(State(), e);
      openFds := openFds + {e.fd};
      ok := Register(e);
      if !ok {
        CloseFd(e.fd);
      }
      assert State() == Step(old(State()), Accept(e));
    }

    // everything between set_nonblocking and the err label; false is a jump to that label
    method Register(e: AcceptEnv) returns (ok: bool)
      requires e.fd !in reactor
      requires e.block.Some? ==> e.block.value !in blocks && e.block.value !in listed
      modifies this`reactor, this`blocks, this`listed
      ensures ok <==> e.nonblocking && e.block.Some? && (e.unixSocket || e.nodeKnown) && e.registered
      ensures !ok ==> reactor == old(reactor) && blocks == old(blocks) && listed == old(listed)
      ensures ok ==>
                var a := e.block.value;
                && reactor == old(reactor)[e.fd := a]
                && blocks == old(blocks)[a := Notify(e.fd, None, !e.unixSocket)]
                && listed == if e.unixSocket then old(listed) else [a] + old(listed)
    {
      if !e.nonblocking { return false; }
      if e.block.None? { return false; }
      var a := e.block.value;
      blocks := blocks[a := Notify(e.fd, None, false)];
      if !e.unixSocket {
        if !e.nodeKnown {
          FreeNotify(a);
          return false;
        }
        listed := [a] + listed;
        blocks := blocks[a := blocks[a].(linked := true)];
      }
      if !e.registered {
        if blocks[a].linked {
          WithoutAbsent(old(listed), a);
          ListDel(a);
        }
        FreeNotify(a);
        return false;
      }
      reactor := reactor[e.fd := a];
      return true;
    }

    // free_rtpp_notify
    method FreeRtppNotify(fd: Fd, a: Addr)
      requires fd in openFds && fd in reactor && a in blocks
      requires blocks[a].linked ==> a in listed
      requires blocks[a].remaining.Some? ==> blocks[a].remaining.value in tails
      modifies this
      ensures openFds == old(openFds) - {fd} && reactor == old(reactor) - {fd} && blocks == old(blocks) - {a}
      ensures tails == old(tails) - Held(old(blocks[a].remaining))
      ensures listed == if old(blocks[a].linked) then Without(old(listed), a) else old(listed)
    {
      reactor := reactor - {fd};
      if blocks[a].linked { ListDel(a); }
      if blocks[a].remaining.Some? { FreeTail(blocks[a].remaining.value); }
      FreeNotify(a);
      CloseFd(fd);
    }

    // rtpproxy_io_callback as the table sees it: the saved tail is reloaded and released at
    // the top, and the framing of NotifyDrain decides the outcome.
    method IoCallback(fd: Fd, outcome: Outcome)
      requires Possible(State(), Readable(fd, outcome)) && Consistent(State())
      modifies this
      ensures State() == Step(old(State()), Readable(fd, outcome)) && Consistent(State())
    {
      ReadableConsistent(State(), fd, outcome);
      assert blocks[reactor[fd]].remaining.Some? ==>
        Owns(State(), reactor[fd], blocks[reactor[fd]].remaining.value);
      Drain(fd, outcome);
    }

    method Drain(fd: Fd, outcome: Outcome)
      requires Possible(State(), Readable(fd, outcome)) && fd in openFds
      requires blocks[reactor[fd]].linked ==> reactor[fd] in listed
      requires blocks[reactor[fd]].remaining.Some? ==> blocks[reactor[fd]].remaining.value in tails
      modifies this
      ensures State() == Step(old(State()), Readable(fd, outcome))
    {
      var a := reactor[fd];
      if blocks[a].remaining.Some? {
        FreeTail(blocks[a].remaining.value);
        blocks := blocks[a := blocks[a].(remaining := None)];
      }
      match outcome {
        case Release =>
          FreeRtppNotify(fd, a);
          assert blocks == old(blocks) - {a};
        case Keep(tail) =>
          tails := tails + Held(tail);
          blocks := blocks[a := blocks[a].(remaining := tail)];
          assert blocks == old(blocks)[a := old(blocks)[a].(remaining := tail)];
      }
    }
  }
}
