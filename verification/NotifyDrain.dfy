// The patched rtpproxy_io_callback: nested read and scan loops over a fixed buffer, with
// the tail moved to the front after each read and saved in the notify block between calls.
// Each activation is proved to do to the connection what the byte machine of NotifyFraming does.
module NotifyDrain {
  import opened NotifyFraming

  datatype ReadResult = Got(len: nat) | Again | Failed

  // The descriptor during one activation: the data the kernel still has, then the reason
  // there is no more of it.
  class Socket {
    var pending: seq<Chunk>
    var end: ReadEnd

    constructor (pending: seq<Chunk>, end: ReadEnd)
      ensures this.pending == pending && this.end == end
    {
      this.pending, this.end := pending, end;
    }

    // read(fd, buffer + offset, window): at most window bytes of the next chunk.  A result
    // of zero bytes means end of file or an empty window, and nothing in it tells which.
    method Read(buffer: array<byte>, offset: nat, window: nat) returns (r: ReadResult)
      requires offset + window <= buffer.Length
      modifies this`pending, buffer
      ensures r.Got? && r.len > 0 ==>
                && r.len <= window
                && Concat(old(pending)) == buffer[offset..offset + r.len] + Concat(pending)
                && |Concat(pending)| < |Concat(old(pending))|
      ensures r.Got? && r.len == 0 ==> window == 0 || (old(pending) == [] && end == Eof)
      ensures r.Again? ==> old(pending) == [] && end == WouldBlock
      ensures r.Failed? ==> old(pending) == [] && end == Error
      ensures !(r.Got? && r.len > 0) ==> pending == old(pending)
      ensures forall i | 0 <= i < buffer.Length && !(r.Got? && offset <= i < offset + r.len) ::
                buffer[i] == old(buffer[i])
    {
      if window == 0 { return Got(0); }
      if pending == [] {
        match end
        case WouldBlock => return Again;
        case Eof => return Got(0);
        case Error => return Failed;
      }
      var chunk := pending[0];
      var n := if |chunk| <= window then |chunk| else window;
      forall i | 0 <= i < n {
        buffer[offset + i] := chunk[i];
      }
      assert buffer[offset..offset + n] == chunk[..n];
      if n == |chunk| {
        pending := pending[1..];
      } else {
        var left: Chunk := chunk[n..];
        assert chunk == chunk[..n] + left;
        assert ([left] + pending[1..])[1..] == pending[1..];
        pending := [left] + pending[1..];
      }
      return Got(n);
    }
  }

  // notification_handler: remembers what it was given; its verdicts are the environment's.
  class Handler {
    const outcome: nat -> bool
    var commands: seq<Bytes>

    constructor (outcome: nat -> bool)
      ensures this.outcome == outcome && commands == []
    {
      this.outcome, commands := outcome, [];
    }

    method Handle(command: Bytes) returns (ok: bool)
      modifies this`commands
      ensures commands == old(commands) + [command] && ok == outcome(|old(commands)|)
    {
      ok := outcome(|commands|);
      commands := commands + [command];
    }
  }

  // The part of struct rtpp_notify the framing uses.
  class NotifyBlock {
    var remaining: array?<byte>
    var remainingLen: nat

    constructor ()
      ensures remaining == null && remainingLen == 0
    {
      remaining, remainingLen := null, 0;
    }

    ghost predicate Valid(bufLen: nat)
      reads this, remaining
    {
      && (remaining == null ==> remainingLen == 0)
      && (remaining != null ==> 0 < remainingLen == remaining.Length < bufLen)
      && NoNewline(Tail())
    }

    ghost function Tail(): Bytes
      reads this, remaining
    {
      if remaining == null then [] else remaining[..]
    }
  }

  // q_memchr(p, '\n', left): the index of the first newline in the window, or -1 for NULL.
  method FindNewline(buffer: array<byte>, p: nat, left: nat) returns (sp: int)
    requires p + left <= buffer.Length
    ensures sp == -1 ==> NoNewline(buffer[p..p + left])
    ensures sp != -1 ==> p <= sp < p + left && buffer[sp] == NEWLINE && NoNewline(buffer[p..sp])
  {
    sp := p;
    while sp < p + left
      invariant p <= sp <= p + left
      invariant NoNewline(buffer[p..sp])
    {
      if buffer[sp] == NEWLINE { return; }
      assert buffer[p..sp + 1] == buffer[p..sp] + [buffer[sp]];
      sp := sp + 1;
    }
    sp := -1;
  }

  // memmove(buffer, buffer + p, n)
  method MoveToFront(buffer: array<byte>, p: nat, n: nat)
    requires p + n <= buffer.Length
    modifies buffer
    ensures buffer[..n] == old(buffer[p..p + n])
  {
    for i := 0 to n
      invariant forall k | 0 <= k < i :: buffer[k] == old(buffer[p + k])
      invariant forall k | i <= k < buffer.Length :: buffer[k] == old(buffer[k])
    {
      buffer[i] := buffer[p + i];
    }
    assert forall k | 0 <= k < n :: buffer[..n][k] == old(buffer[p..p + n])[k];
  }

  // One complete line of s, from p to the newline at sp, is delivered.
  lemma DeliverOne(env: Env, cs: seq<Bytes>, s: Bytes, p: nat, sp: nat)
    requires p <= sp < |s| && s[sp] == NEWLINE && NoNewline(s[p..sp]) && |s| <= env.bufLen
    ensures var after := Conn(if env.handlerOk(|cs|) then Open else HandlerFailed, [], cs + [s[p..sp]]);
            Feed(env, Conn(Open, [], cs), s[p..])
            == if env.handlerOk(|cs|) then Feed(env, after, s[sp + 1..]) else after
  {
    assert s[p..] == s[p..sp] + [NEWLINE] + s[sp + 1..];
    FeedLine(env, cs, s[p..sp], s[sp + 1..]);
    if !env.handlerOk(|cs|) { FeedClosed(env, Conn(HandlerFailed, [], cs + [s[p..sp]]), s[sp + 1..]); }
  }

  // What follows the last newline is kept.
  lemma KeepRest(env: Env, cs: seq<Bytes>, rest: Bytes)
    requires NoNewline(rest) && |rest| <= env.bufLen && 0 < env.bufLen
    ensures Feed(env, Conn(Open, [], cs), rest) == Conn(if |rest| == env.bufLen then TooLarge else Open, rest, cs)
  {
    FeedPlain(env, Conn(Open, [], cs), rest);
    assert [] + rest == rest;
  }

  // The inner do/while of the callback: hand every complete line of buffer[..total] to the
  // handler.  The bytes from p on are what is left; ok is false once a handler call failed.
  method DeliverLines(buffer: array<byte>, total: nat, handler: Handler, ghost env: Env)
    returns (p: nat, ok: bool)
    requires 0 < total <= buffer.Length == env.bufLen
    requires env.handlerOk == handler.outcome
    modifies handler`commands
    ensures p <= total
    ensures var c := Feed(env, Conn(Open, [], old(handler.commands)), buffer[..total]);
            && (!ok ==> c == Conn(HandlerFailed, [], handler.commands))
            && (ok ==> NoNewline(buffer[p..total])
                       && c == Conn(if total - p == env.bufLen then TooLarge else Open,
                                    buffer[p..total], handler.commands))
  {
    ghost var all := buffer[..total];
    ghost var goal := Feed(env, Conn(Open, [], handler.commands), all);
    p := 0;
    var left := total;
    while p < total
      invariant 0 <= p <= total && left == total - p
      invariant Feed(env, Conn(Open, [], handler.commands), all[p..]) == goal
    {
      var sp := FindNewline(buffer, p, left);
      if sp == -1 {
        assert all[p..] == buffer[p..p + left];
        break;
      }
      assert all[p..sp] == buffer[p..sp];
      DeliverOne(env, handler.commands, all, p, sp);
      var accepted := handler.Handle(buffer[p..sp]);
      left := left - (sp - p) - 1;
      p := sp + 1;
      if !accepted { return p, false; }
    }
    ok := true;
    assert all[p..] == buffer[p..total];
    KeepRest(env, handler.commands, all[p..]);
  }

  // One round of the read loop: len fresh bytes lie behind the offset bytes of the tail.
  // Deliver what is complete and move the new tail to the front.
  method Absorb(buffer: array<byte>, offset: nat, len: nat, handler: Handler, ghost env: Env)
    returns (newOffset: nat, ok: bool)
    requires 0 < len && offset < offset + len <= buffer.Length == env.bufLen
    requires env.handlerOk == handler.outcome
    requires NoNewline(buffer[..offset])
    modifies buffer, handler`commands
    ensures newOffset <= buffer.Length
    ensures Feed(env, Conn(Open, old(buffer[..offset]), old(handler.commands)), old(buffer[offset..offset + len]))
            == if !ok then Conn(HandlerFailed, [], handler.commands)
               else Conn(if newOffset == env.bufLen then TooLarge else Open, buffer[..newOffset], handler.commands)
    ensures ok ==> NoNewline(buffer[..newOffset])
  {
    var total := offset + len;
    assert buffer[..total] == buffer[..offset] + buffer[offset..total];
    FeedReloaded(env, Conn(Open, buffer[..offset], handler.commands), buffer[offset..total]);
    var p;
    p, ok := DeliverLines(buffer, total, handler, env);
    newOffset := total - p;
    if ok { MoveToFront(buffer, p, newOffset); }
  }

  // The connection as the rest of the program sees it: its saved tail and the commands so far.
  ghost function View(notify: NotifyBlock?, handler: Handler): Conn
    reads notify, if notify == null then null else notify.remaining, handler
  {
    Conn(Open, if notify == null then [] else notify.Tail(), handler.commands)
  }

  // The reload at the top of the callback: copy the saved tail into the buffer and free it.
  method LoadTail(notify: NotifyBlock?, buffer: array<byte>) returns (offset: nat)
    requires notify != null ==> notify.Valid(buffer.Length)
    requires notify != null ==> notify.remaining != buffer
    modifies notify, buffer
    ensures offset <= buffer.Length && (offset == buffer.Length ==> buffer.Length == 0)
    ensures buffer[..offset] == if notify == null then [] else old(notify.Tail())
    ensures notify != null ==> notify.remaining == null && notify.remainingLen == 0
  {
    offset := 0;
    if notify != null && notify.remaining != null {
      offset := notify.remainingLen;
      forall i | 0 <= i < offset { buffer[i] := notify.remaining[i]; }
      notify.remaining, notify.remainingLen := null, 0;
    }
  }

  // The end of the callback: keep the tail for the next call, or drop it.
  method SaveTail(notify: NotifyBlock?, buffer: array<byte>, offset: nat, mallocOk: bool)
    requires offset < buffer.Length && NoNewline(buffer[..offset])
    requires notify != null ==> notify.remaining == null && notify.remainingLen == 0
    modifies notify
    ensures notify != null ==> notify.Valid(buffer.Length) && (notify.remaining == null || fresh(notify.remaining))
    ensures (if notify == null then [] else notify.Tail())
            == if notify != null && mallocOk then buffer[..offset] else []
  {
    if offset > 0 && notify != null && mallocOk {
      var saved := new byte[offset];
      forall i | 0 <= i < offset { saved[i] := buffer[i]; }
      notify.remaining, notify.remainingLen := saved, offset;
      assert saved[..] == buffer[..offset];
    }
  }

  // One turn of the for(;;): more data was framed, or the reads came to an end, or a handler
  // call failed.
  datatype Round = More(offset: nat) | Ended(why: ReadEnd) | Refused

  method ReadAndAbsorb(buffer: array<byte>, offset: nat, socket: Socket, handler: Handler, ghost env: Env)
    returns (r: Round)
    requires buffer.Length == env.bufLen && env.handlerOk == handler.outcome
    requires offset < buffer.Length && NoNewline(buffer[..offset])
    modifies buffer, socket`pending, handler`commands
    ensures var c := Conn(Open, old(buffer[..offset]), old(handler.commands));
            var goal := Feed(env, c, Concat(old(socket.pending)));
            match r
            case More(n) =>
              && n <= buffer.Length && NoNewline(buffer[..n])
              && |Concat(socket.pending)| < |Concat(old(socket.pending))|
              && goal == Feed(env, Conn(if n == env.bufLen then TooLarge else Open, buffer[..n], handler.commands),
                              Concat(socket.pending))
            case Ended(why) =>
              why == socket.end && buffer[..offset] == old(buffer[..offset])
              && goal == Conn(Open, buffer[..offset], handler.commands)
            case Refused => goal == Conn(HandlerFailed, [], handler.commands)
  {
    ghost var here := Conn(Open, buffer[..offset], handler.commands);
    var res := socket.Read(buffer, offset, buffer.Length - offset);
    assert buffer[..offset] == here.tail;
    match res {
      case Again => return Ended(WouldBlock);
      case Failed => return Ended(Error);
      case Got(len) =>
        // The window was positive, so an empty read is end of file.
        if len == 0 { return Ended(Eof); }
        FeedConcat(env, here, buffer[offset..offset + len], Concat(socket.pending));
        var n, ok := Absorb(buffer, offset, len, handler, env);
        if !ok {
          FeedClosed(env, Conn(HandlerFailed, [], handler.commands), Concat(socket.pending));
          return Refused;
        }
        return More(n);
    }
  }

  // rtpproxy_io_callback.  A result other than Open stands for free_rtpp_notify having been
  // called; the C return value is 0 for Open and PeerClosed and -1 for the others.
  method IoCallback(notify: NotifyBlock?, socket: Socket, handler: Handler, bufLen: nat, mallocOk: bool)
    returns (status: Status)
    requires 0 < bufLen && (notify != null ==> notify.Valid(bufLen))
    modifies socket`pending, handler`commands, notify
    ensures notify != null && status.Open? ==> notify.Valid(bufLen)
    ensures notify != null ==> notify.remaining == null || fresh(notify.remaining)
    ensures var c := Callback(Env(bufLen, handler.outcome), old(View(notify, handler)),
                              Wakeup(old(socket.pending), socket.end, mallocOk && notify != null));
            && status == c.status
            && handler.commands == c.commands
            && (status.Open? ==> View(notify, handler) == c)
    ensures EndedBy(status, socket.end)
  {
    ghost var env := Env(bufLen, handler.outcome);
    ghost var goal := Feed(env, View(notify, handler), Concat(socket.pending));
    var buffer := new byte[bufLen];
    var offset := LoadTail(notify, buffer);
    while true
      invariant notify != null ==> notify.remaining == null && notify.remainingLen == 0
      invariant 0 <= offset <= bufLen && NoNewline(buffer[..offset])
      invariant Feed(env, Conn(if offset == bufLen then TooLarge else Open, buffer[..offset], handler.commands),
                     Concat(socket.pending)) == goal
      decreases |Concat(socket.pending)|
    {
      if offset == bufLen {
        FeedClosed(env, Conn(TooLarge, buffer[..offset], handler.commands), Concat(socket.pending));
        return TooLarge;
      }
      var r := ReadAndAbsorb(buffer, offset, socket, handler, env);
      match r {
        case Refused => return HandlerFailed;
        case Ended(why) =>
          if why == Error { return ReadFailed; }
          if why == Eof { return PeerClosed; }
          break;
        case More(n) => offset := n;
      }
    }
    SaveTail(notify, buffer, offset, mallocOk);
    return Open;
  }

  // A connection served by one wake-up after another ends up where the specification's run does.
  method ServeConnection(wakeups: seq<Wakeup>, handler: Handler, bufLen: nat) returns (status: Status)
    requires 0 < bufLen && handler.commands == []
    modifies handler`commands
    ensures var c := Run(Env(bufLen, handler.outcome), ACCEPTED, wakeups);
            status == c.status && handler.commands == c.commands
  {
    var notify := new NotifyBlock();
    ghost var env := Env(bufLen, handler.outcome);
    status := Open;
    var i := 0;
    while i < |wakeups| && status.Open?
      invariant 0 <= i <= |wakeups| && (status.Open? ==> notify.Valid(bufLen)) && fresh(notify)
      invariant notify.remaining == null || fresh(notify.remaining)
      invariant status.Open? ==> Run(env, View(notify, handler), wakeups[i..]) == Run(env, ACCEPTED, wakeups)
      invariant !status.Open? ==> var c := Run(env, ACCEPTED, wakeups);
                                  status == c.status && handler.commands == c.commands
    {
      var w := wakeups[i];
      ghost var c := Callback(env, View(notify, handler), w);
      assert wakeups[i..][1..] == wakeups[i + 1..];
      var socket := new Socket(w.chunks, w.end);
      status := IoCallback(notify, socket, handler, bufLen, w.mallocOk);
      if !status.Open? { RunClosed(env, c, wakeups[i + 1..]); }
      i := i + 1;
    }
  }
}
