// The listener process as a whole: any number of connections, their callbacks interleaved in
// any order, each with the bytes of NotifyFraming and the resources of NotifyLifecycle.
module NotifyServer {
  import opened Wrappers
  import opened NotifyFraming
  import opened NotifyLifecycle

  // conns: what each open connection has in its buffer and has delivered; history: the
  // wake-ups it has had since it was accepted; envs: BUF_LEN and its handler outcomes.
  // ended: the connections that are gone, with the wake-ups before the closing one.
  datatype Server = Server(table: Table, conns: map<Fd, Conn>, history: map<Fd, seq<Wakeup>>, envs: map<Fd, Env>,
                           ended: seq<Ended>)

  datatype Ended = Ended(env: Env, history: seq<Wakeup>, last: Wakeup, conn: Conn)

  const IDLE := Server(EMPTY, map[], map[], map[], [])

  // saved is the address the allocator gives for the tail, if it gives one.
  datatype Occurrence = Incoming(e: AcceptEnv, env: Env) | Wake(fd: Fd, w: Wakeup, saved: Option<Addr>)

  // How the framing of one callback decides what happens to the connection's resources.
  function OutcomeOf(c: Conn, saved: Option<Addr>): Outcome {
    if !c.status.Open? then Release else if c.tail == [] then Keep(None) else Keep(saved)
  }

  function After(s: Server, fd: Fd, w: Wakeup): Conn
    requires fd in s.conns && fd in s.envs
  {
    Callback(s.envs[fd], s.conns[fd], w)
  }

  function EventOf(s: Server, o: Occurrence): Event
    requires o.Wake? ==> o.fd in s.conns && o.fd in s.envs
  {
    match o
    case Incoming(e, _) => Accept(e)
    case Wake(fd, w, saved) =>
      var c := After(s, fd, w);
      // a tail that could not be saved has been dropped, so there is nothing to keep
      Readable(fd, OutcomeOf(c, saved))
  }

  ghost predicate MayOccur(s: Server, o: Occurrence) {
    && (o.Wake? ==> o.fd in s.conns && o.fd in s.envs && o.fd in s.history && (o.w.mallocOk <==> o.saved.Some?))
    && (o.Incoming? ==> 0 < o.env.bufLen)
    && Possible(s.table, EventOf(s, o))
  }

  function Next(s: Server, o: Occurrence): Server
    requires MayOccur(s, o)
  {
    var table := Step(s.table, EventOf(s, o));
    match o
    case Incoming(e, env) =>
      if !Accepted(e) then s
      else Server(table, s.conns[e.fd := ACCEPTED], s.history[e.fd := []], s.envs[e.fd := env], s.ended)
    case Wake(fd, w, _) =>
      var c := After(s, fd, w);
      if c.status.Open? then Server(table, s.conns[fd := c], s.history[fd := s.history[fd] + [w]], s.envs, s.ended)
      else
        Server(table, s.conns - {fd}, s.history - {fd}, s.envs - {fd},
               s.ended + [Ended(s.envs[fd], s.history[fd], w, c)])
  }

  ghost predicate Served(s: Server, fd: Fd) {
    && fd in s.conns && fd in s.history && fd in s.envs && 0 < s.envs[fd].bufLen
    && s.conns[fd].status.Open? && Framed(s.envs[fd], s.conns[fd])
    && s.conns[fd] == Run(s.envs[fd], ACCEPTED, s.history[fd])
    && fd in s.table.reactor && s.table.reactor[fd] in s.table.blocks
    && (s.table.blocks[s.table.reactor[fd]].remaining.Some? <==> s.conns[fd].tail != [])
  }

  ghost predicate Aligned(s: Server) {
    s.conns.Keys == s.table.openFds && s.history.Keys == s.table.openFds && s.envs.Keys == s.table.openFds
  }

  ghost predicate AllServed(s: Server) {
    forall fd {:trigger Served(s, fd)} | fd in s.conns :: Served(s, fd)
  }

  ghost predicate WellEnded(e: Ended) {
    && 0 < e.env.bufLen && NotifyFraming.Run(e.env, ACCEPTED, e.history).status.Open?
    && e.conn == NotifyFraming.Run(e.env, ACCEPTED, e.history + [e.last]) && !e.conn.status.Open?
  }

  ghost predicate AllEnded(s: Server) {
    forall i {:trigger s.ended[i]} | 0 <= i < |s.ended| :: WellEnded(s.ended[i])
  }

  ghost predicate Sound(s: Server) {
    Consistent(s.table) && Aligned(s) && AllServed(s) && AllEnded(s)
  }

  // A step that leaves a connection's entries alone leaves it served.
  lemma StaysServed(s: Server, r: Server, fd: Fd)
    requires Served(s, fd)
    requires fd in r.conns && fd in r.history && fd in r.envs && fd in r.table.reactor
    requires r.conns[fd] == s.conns[fd] && r.history[fd] == s.history[fd] && r.envs[fd] == s.envs[fd]
    requires r.table.reactor[fd] == s.table.reactor[fd] && r.table.reactor[fd] in r.table.blocks
    requires r.table.blocks[r.table.reactor[fd]].remaining == s.table.blocks[s.table.reactor[fd]].remaining
    ensures Served(r, fd)
  {
  }

  lemma IncomingServed(s: Server, e: AcceptEnv, env: Env, fd: Fd)
    requires Sound(s) && MayOccur(s, Incoming(e, env)) && Accepted(e)
    requires fd in s.conns || fd == e.fd
    ensures Served(Next(s, Incoming(e, env)), fd)
  {
    var r := Next(s, Incoming(e, env));
    if fd != e.fd {
      assert Served(s, fd);
      assert s.table.reactor[fd] != e.block.value;
      StaysServed(s, r, fd);
    }
  }

  lemma IncomingAllServed(s: Server, e: AcceptEnv, env: Env)
    requires Sound(s) && MayOccur(s, Incoming(e, env)) && Accepted(e)
    ensures AllServed(Next(s, Incoming(e, env)))
  {
    var r := Next(s, Incoming(e, env));
    forall fd | fd in r.conns ensures Served(r, fd) {
      IncomingServed(s, e, env, fd);
    }
  }

  lemma {:induction false} IncomingSound(s: Server, e: AcceptEnv, env: Env)
    requires Sound(s) && MayOccur(s, Incoming(e, env))
    ensures Sound(Next(s, Incoming(e, env)))
  {
    if Accepted(e) {
      AcceptConsistent(s.table, e);
      IncomingAllServed(s, e, env);
    }
  }

  lemma WakeServed(s: Server, fd: Fd, w: Wakeup, saved: Option<Addr>)
    requires Sound(s) && MayOccur(s, Wake(fd, w, saved)) && After(s, fd, w).status.Open?
    ensures Served(Next(s, Wake(fd, w, saved)), fd)
  {
    assert Served(s, fd);
    NotifyFraming.RunSnoc(s.envs[fd], ACCEPTED, s.history[fd], w);
    FeedFramed(s.envs[fd], s.conns[fd], Concat(w.chunks));
  }

  lemma WakeOthersServed(s: Server, fd: Fd, w: Wakeup, saved: Option<Addr>, g: Fd)
    requires Sound(s) && MayOccur(s, Wake(fd, w, saved)) && g in s.conns && g != fd
    ensures Served(Next(s, Wake(fd, w, saved)), g)
  {
    assert Served(s, g) && Served(s, fd);
    OwnBlock(s.table, g, fd);
    StaysServed(s, Next(s, Wake(fd, w, saved)), g);
  }

  lemma OwnBlock(t: Table, g: Fd, fd: Fd)
    requires Registered(t) && g in t.reactor && fd in t.reactor && g != fd
    ensures t.reactor[g] != t.reactor[fd]
  {
    assert t.blocks[t.reactor[g]].fd == g && t.blocks[t.reactor[fd]].fd == fd;
  }

  lemma WakeAllServed(s: Server, fd: Fd, w: Wakeup, saved: Option<Addr>)
    requires Sound(s) && MayOccur(s, Wake(fd, w, saved))
    ensures AllServed(Next(s, Wake(fd, w, saved)))
  {
    var r := Next(s, Wake(fd, w, saved));
    forall g | g in r.conns ensures Served(r, g) {
      if g == fd {
        WakeServed(s, fd, w, saved);
      } else {
        WakeOthersServed(s, fd, w, saved, g);
      }
    }
  }

  lemma WakeEnds(s: Server, fd: Fd, w: Wakeup, saved: Option<Addr>)
    requires Sound(s) && MayOccur(s, Wake(fd, w, saved))
    ensures AllEnded(Next(s, Wake(fd, w, saved)))
  {
    assert Served(s, fd);
    NotifyFraming.RunSnoc(s.envs[fd], ACCEPTED, s.history[fd], w);
  }

  lemma WakeSound(s: Server, fd: Fd, w: Wakeup, saved: Option<Addr>)
    requires Sound(s) && MayOccur(s, Wake(fd, w, saved))
    ensures Sound(Next(s, Wake(fd, w, saved)))
  {
    ReadableConsistent(s.table, fd, EventOf(s, Wake(fd, w, saved)).outcome);
    WakeAllServed(s, fd, w, saved);
    WakeEnds(s, fd, w, saved);
  }

  ghost predicate IsServerRun(ss: seq<Server>, os: seq<Occurrence>) {
    && |ss| == |os| + 1 && ss[0] == IDLE
    && forall i | 0 <= i < |os| :: MayOccur(ss[i], os[i]) && ss[i + 1] == Next(ss[i], os[i])
  }

  lemma {:induction false} ServerSound(ss: seq<Server>, os: seq<Occurrence>)
    requires IsServerRun(ss, os)
    ensures Sound(ss[|os|])
    decreases |os|
  {
    if os != [] {
      var n := |os| - 1;
      ServerSound(ss[..|os|], os[..n]);
      match os[n]
      case Incoming(e, env) => IncomingSound(ss[n], e, env);
      case Wake(fd, w, saved) => WakeSound(ss[n], fd, w, saved);
    }
  }

  // Connections do not disturb each other: in every interleaving, an open connection has
  // handed on exactly the lines of its own bytes and holds exactly what follows its last
  // newline -- if and only if none of its tails was lost; and it has a saved tail in memory
  // exactly when that rest is not empty.
  lemma EveryConnectionFramed(ss: seq<Server>, os: seq<Occurrence>, fd: Fd)
    requires IsServerRun(ss, os) && fd in ss[|os|].conns
    ensures var s := ss[|os|];
            && fd in s.envs && fd in s.history && fd in s.table.reactor && s.table.reactor[fd] in s.table.blocks
            && (IsSplit(Stream(s.history[fd]), s.conns[fd].commands, s.conns[fd].tail)
                <==> Dropped(s.envs[fd], ACCEPTED, s.history[fd]) == 0)
            && (s.table.blocks[s.table.reactor[fd]].remaining.Some? <==> s.conns[fd].tail != [])
            && |s.conns[fd].tail| < s.envs[fd].bufLen
  {
    ServerSound(ss, os);
    var s := ss[|os|];
    assert Served(s, fd);
    SplitIffNothingDropped(s.envs[fd], s.history[fd]);
  }

  // And the connections that are gone: at end of file or on a read error a connection had
  // handed on exactly its lines if and only if none of its tails was lost; without such a
  // loss, however it ended, what it handed on and what it still held are a prefix of its bytes,
  // and every command was accepted, but for the last one if it ended in a handler.
  lemma EveryEndedFramed(ss: seq<Server>, os: seq<Occurrence>, i: nat)
    requires IsServerRun(ss, os) && i < |ss[|os|].ended|
    ensures var e := ss[|os|].ended[i];
            var bytes, lost := Stream(e.history + [e.last]), Dropped(e.env, ACCEPTED, e.history);
            && !e.conn.status.Open? && EndedBy(e.conn.status, e.last.end)
            && (e.conn.status in {PeerClosed, ReadFailed} ==>
                  (IsSplit(bytes, e.conn.commands, e.conn.tail) <==> lost == 0))
            && (lost == 0 ==> Join(e.conn.commands) + e.conn.tail <= bytes)
            && (lost == 0 && e.conn.status.TooLarge? ==> |e.conn.tail| == e.env.bufLen)
            && (lost == 0 ==> HandlersAnswered(e.env, e.conn))
  {
    ServerSound(ss, os);
    var e := ss[|os|].ended[i];
    assert WellEnded(e);
    NotifyFraming.RunSnoc(e.env, ACCEPTED, e.history, e.last);
    CallbackEnds(e.env, NotifyFraming.Run(e.env, ACCEPTED, e.history), e.last);
    if e.conn.status in {PeerClosed, ReadFailed} {
      LastReadFramed(e.env, e.history, e.last);
    }
    if Dropped(e.env, ACCEPTED, e.history) == 0 { ClosingCallback(e.env, e.history, e.last); }
  }

  // When the last connection is gone the process holds no block, no tail and no list entry.
  lemma ServerReleasesAll(ss: seq<Server>, os: seq<Occurrence>)
    requires IsServerRun(ss, os) && ss[|os|].conns == map[]
    ensures ss[|os|] == IDLE.(ended := ss[|os|].ended)
  {
    ServerSound(ss, os);
    NothingLeft(ss[|os|].table);
  }
}
