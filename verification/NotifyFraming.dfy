// The byte stream of one RTPProxy notification connection, seen one byte at a time.
//
// This is the specification the buffered callback in NotifyDrain is proved against.  It
// is deliberately naive: it has no buffer, no read sizes and no memmove.  Everything the
// patched OpenSIPS code promises about framing is stated and proved here, for every
// stream and every way of cutting it up.
module NotifyFraming {

  newtype byte = x: int | 0 <= x < 256
  const NEWLINE: byte := 10

  type Bytes = seq<byte>

  // What one read() may hand over; a zero-length result of read() is end of file.
  type Chunk = c: Bytes | 0 < |c| witness [NEWLINE]

  datatype Status = Open | TooLarge | HandlerFailed | ReadFailed | PeerClosed

  // tail: the bytes after the last newline; commands: what notification_handler was given.
  datatype Conn = Conn(status: Status, tail: Bytes, commands: seq<Bytes>)

  const ACCEPTED := Conn(Open, [], [])

  // bufLen is BUF_LEN; handlerOk(i) is the outcome of the i-th notification_handler call.
  datatype Env = Env(bufLen: nat, handlerOk: nat -> bool)

  // Why the read loop of one callback stopped, when no byte stopped it first.
  datatype ReadEnd = WouldBlock | Eof | Error

  // One activation of the callback: the reads it gets, what the last read said, and
  // whether the allocation of the saved tail (attempted only for a nonempty tail) works.
  datatype Wakeup = Wakeup(chunks: seq<Chunk>, end: ReadEnd, mallocOk: bool)

  // ---------------------------------------------------------------- the byte machine

  function FeedByte(env: Env, c: Conn, b: byte): Conn {
    if !c.status.Open? then c
    else if b == NEWLINE then
      Conn(if env.handlerOk(|c.commands|) then Open else HandlerFailed, [], c.commands + [c.tail])
    else
      Conn(if |c.tail| + 1 == env.bufLen then TooLarge else Open, c.tail + [b], c.commands)
  }

  function Feed(env: Env, c: Conn, s: Bytes): Conn
    decreases |s|
  {
    if s == [] then c else Feed(env, FeedByte(env, c, s[0]), s[1..])
  }

  function Concat(chunks: seq<Bytes>): Bytes {
    if chunks == [] then [] else chunks[0] + Concat(chunks[1..])
  }

  // What happens once the reads of a callback are used up.
  function FinishCallback(c: Conn, end: ReadEnd, mallocOk: bool): Conn {
    if !c.status.Open? then c
    else match end
      case Eof => c.(status := PeerClosed)
      case Error => c.(status := ReadFailed)
      case WouldBlock => if c.tail == [] || mallocOk then c else c.(tail := [])
  }

  function Callback(env: Env, c: Conn, w: Wakeup): Conn {
    FinishCallback(Feed(env, c, Concat(w.chunks)), w.end, w.mallocOk)
  }

  function Run(env: Env, c: Conn, ws: seq<Wakeup>): Conn
    decreases |ws|
  {
    if ws == [] then c else Run(env, Callback(env, c, ws[0]), ws[1..])
  }

  // ------------------------------------------------- "split the stream at newlines"

  predicate NoNewline(s: Bytes) {
    10 !in s
  }

  function Join(lines: seq<Bytes>): Bytes {
    if lines == [] then [] else lines[0] + [NEWLINE] + Join(lines[1..])
  }

  // lines and rest are what splitting s at its newlines gives.
  ghost predicate IsSplit(s: Bytes, lines: seq<Bytes>, rest: Bytes) {
    && s == Join(lines) + rest
    && (forall i | 0 <= i < |lines| :: NoNewline(lines[i]))
    && NoNewline(rest)
  }

  lemma {:induction false} JoinAppend(lines: seq<Bytes>, line: Bytes)
    ensures Join(lines + [line]) == Join(lines) + line + [NEWLINE]
  {
    if lines != [] {
      assert (lines + [line])[1..] == lines[1..] + [line];
      JoinAppend(lines[1..], line);
    }
  }

  // A split is determined from the front: its first line ends at the first newline.
  lemma SplitHead(s: Bytes, lines: seq<Bytes>, rest: Bytes)
    requires IsSplit(s, lines, rest)
    ensures lines == [] ==> NoNewline(s) && s == rest
    ensures lines != [] ==>
              var n := |lines[0]|;
              && n < |s| && s[n] == NEWLINE && s[..n] == lines[0]
              && (forall i | 0 <= i < n :: s[i] != NEWLINE)
              && IsSplit(s[n + 1..], lines[1..], rest)
  {
    if lines != [] {
      var n := |lines[0]|;
      assert s == lines[0] + [NEWLINE] + (Join(lines[1..]) + rest);
      assert forall i | 0 <= i < n :: s[i] == lines[0][i];
    }
  }

  // Splitting is a function: IsSplit determines both the lines and the rest.
  lemma {:induction false} SplitUnique(s: Bytes, l1: seq<Bytes>, r1: Bytes, l2: seq<Bytes>, r2: Bytes)
    requires IsSplit(s, l1, r1) && IsSplit(s, l2, r2)
    ensures l1 == l2 && r1 == r2
    decreases |l1|
  {
    SplitHead(s, l1, r1);
    SplitHead(s, l2, r2);
    if l1 != [] && l2 != [] {
      assert |l1[0]| == |l2[0]|;
      SplitUnique(s[|l1[0]| + 1..], l1[1..], r1, l2[1..], r2);
      assert l1 == [l1[0]] + l1[1..] && l2 == [l2[0]] + l2[1..];
    }
  }

  // ------------------------------------------------------------ the machine's algebra

  lemma {:induction false} FeedClosed(env: Env, c: Conn, s: Bytes)
    requires !c.status.Open?
    ensures Feed(env, c, s) == c
    decreases |s|
  {
    if s != [] { FeedClosed(env, c, s[1..]); }
  }

  lemma {:induction false} FeedConcat(env: Env, c: Conn, s: Bytes, t: Bytes)
    ensures Feed(env, c, s + t) == Feed(env, Feed(env, c, s), t)
    decreases |s|
  {
    if s == [] {
      assert s + t == t;
    } else {
      assert (s + t)[1..] == s[1..] + t;
      FeedConcat(env, FeedByte(env, c, s[0]), s[1..], t);
    }
  }

  lemma {:induction false} FeedSnoc(env: Env, c: Conn, s: Bytes)
    requires s != []
    ensures Feed(env, c, s) == FeedByte(env, Feed(env, c, s[..|s| - 1]), s[|s| - 1])
  {
    var n := |s| - 1;
    FeedConcat(env, c, s[..n], [s[n]]);
    assert s == s[..n] + [s[n]];
    assert Feed(env, FeedByte(env, Feed(env, c, s[..n]), s[n]), []) ==
           FeedByte(env, Feed(env, c, s[..n]), s[n]);
  }

  // Bytes without a newline only lengthen the tail, up to and including BUF_LEN bytes.
  lemma {:induction false} FeedPlain(env: Env, c: Conn, s: Bytes)
    requires c.status.Open? && NoNewline(s) && |c.tail| + |s| <= env.bufLen && |c.tail| < env.bufLen
    ensures Feed(env, c, s) ==
            Conn(if |c.tail| + |s| == env.bufLen then TooLarge else Open, c.tail + s, c.commands)
    decreases |s|
  {
    if s == [] {
      assert c.tail + s == c.tail;
    } else {
      var d := FeedByte(env, c, s[0]);
      assert c.tail + s == d.tail + s[1..];
      if s[1..] != [] {
        FeedPlain(env, d, s[1..]);
      }
    }
  }

  // One complete line that fits goes to the handler, and the rest starts afresh.
  lemma {:induction false} FeedLine(env: Env, cs: seq<Bytes>, line: Bytes, rest: Bytes)
    requires NoNewline(line) && |line| < env.bufLen
    ensures Feed(env, Conn(Open, [], cs), line + [NEWLINE] + rest) ==
            Feed(env, Conn(if env.handlerOk(|cs|) then Open else HandlerFailed, [], cs + [line]), rest)
  {
    var c := Conn(Open, [], cs);
    FeedPlain(env, c, line);
    assert [] + line == line;
    FeedConcat(env, c, line, [NEWLINE] + rest);
    assert line + [NEWLINE] + rest == line + ([NEWLINE] + rest);
    assert ([NEWLINE] + rest)[1..] == rest;
  }

  // A saved tail is as good as re-reading it at the front of the next data.
  lemma {:induction false} FeedReloaded(env: Env, c: Conn, s: Bytes)
    requires c.status.Open? && NoNewline(c.tail) && |c.tail| < env.bufLen
    ensures Feed(env, c, s) == Feed(env, c.(tail := []), c.tail + s)
  {
    FeedConcat(env, c.(tail := []), c.tail, s);
    FeedPlain(env, c.(tail := []), c.tail);
    assert [] + c.tail == c.tail;
  }

  // ------------------------------------------------------- what one stretch delivers

  // The connection as it is between callbacks.
  ghost predicate Framed(env: Env, c: Conn) {
    && NoNewline(c.tail)
    && (forall i | 0 <= i < |c.commands| :: NoNewline(c.commands[i]) && |c.commands[i]| < env.bufLen)
    && (c.status.Open? ==> |c.tail| < env.bufLen)
    && (c.status.TooLarge? ==> |c.tail| == env.bufLen)
  }

  lemma {:induction false} FeedFramed(env: Env, c: Conn, s: Bytes)
    requires Framed(env, c)
    ensures Framed(env, Feed(env, c, s))
    decreases |s|
  {
    if s != [] { FeedFramed(env, FeedByte(env, c, s[0]), s[1..]); }
  }

  // From a fresh connection, commands and tail are the newline split of what was consumed:
  // of all of s while the connection is open, of a prefix of s once it closed.
  lemma FeedSplits(env: Env, s: Bytes)
    requires 0 < env.bufLen
    ensures var c := Feed(env, ACCEPTED, s);
            && Framed(env, c)
            && Join(c.commands) + c.tail <= s
            && (c.status.Open? ==> IsSplit(s, c.commands, c.tail))
            && c.status in {Open, TooLarge, HandlerFailed}
  {
    FeedFramed(env, ACCEPTED, s);
    FeedConsumes(env, s);
  }

  // What was delivered and is held came from s, in order; all of s while the connection is open.
  ghost predicate Consumed(c: Conn, s: Bytes) {
    && (c.status.Open? || c.status.TooLarge? || c.status.HandlerFailed?)
    && Join(c.commands) + c.tail <= s
    && (c.status.Open? ==> s == Join(c.commands) + c.tail)
  }

  lemma {:induction false} FeedConsumes(env: Env, s: Bytes)
    ensures Consumed(Feed(env, ACCEPTED, s), s)
    decreases |s|
  {
    if s == [] {
      assert Join(ACCEPTED.commands) + ACCEPTED.tail == [];
    } else {
      var n := |s| - 1;
      FeedConsumes(env, s[..n]);
      FeedSnoc(env, ACCEPTED, s);
      ByteConsumed(env, Feed(env, ACCEPTED, s[..n]), s[..n], s[n]);
      assert s == s[..n] + [s[n]];
    }
  }

  lemma ByteConsumed(env: Env, c: Conn, s: Bytes, b: byte)
    requires Consumed(c, s)
    ensures Consumed(FeedByte(env, c, b), s + [b])
  {
    if c.status.Open? {
      JoinAppend(c.commands, c.tail);
      assert Join(c.commands) + (c.tail + [b]) == s + [b];
      assert Join(c.commands) + c.tail + [b] + [] == s + [b];
    }
  }

  // -------------------------------------------------------------- overflow, exactly

  predicate LineStart(s: Bytes, i: nat) {
    i == 0 || (i <= |s| && s[i - 1] == NEWLINE)
  }

  // Some bufLen consecutive bytes from a line start contain no newline.
  ghost predicate Overflows(bufLen: nat, s: Bytes) {
    exists i: nat :: OverflowsAt(bufLen, s, i)
  }

  ghost predicate OverflowsAt(bufLen: nat, s: Bytes, i: nat) {
    i + bufLen <= |s| && LineStart(s, i) && NoNewline(s[i..i + bufLen])
  }

  lemma OverflowsPrefix(bufLen: nat, s: Bytes, t: Bytes)
    requires Overflows(bufLen, s)
    ensures Overflows(bufLen, s + t)
  {
    var i: nat :| OverflowsAt(bufLen, s, i);
    assert (s + t)[i..i + bufLen] == s[i..i + bufLen];
    assert OverflowsAt(bufLen, s + t, i);
  }

  // While handlers succeed, "command too large" is decided by the bytes alone.
  lemma {:induction false} TooLargeExactly(env: Env, s: Bytes)
    requires 0 < env.bufLen && forall i: nat :: env.handlerOk(i)
    ensures Feed(env, ACCEPTED, s).status == if Overflows(env.bufLen, s) then TooLarge else Open
    decreases |s|
  {
    var L := env.bufLen;
    if s == [] {
      assert !Overflows(L, s);
    } else {
      var n := |s| - 1;
      var p := s[..n];
      var c := Feed(env, ACCEPTED, p);
      TooLargeExactly(env, p);
      FeedSplits(env, p);
      FeedSnoc(env, ACCEPTED, s);
      assert s == p + [s[n]];
      if Overflows(L, p) {
        OverflowsPrefix(L, p, [s[n]]);
      } else {
        OverflowAtEnd(env, s, c);
      }
    }
  }

  // If s without its last byte does not overflow, s does exactly when the tail fills up.
  lemma OverflowAtEnd(env: Env, s: Bytes, c: Conn)
    requires 0 < env.bufLen && s != [] && !Overflows(env.bufLen, s[..|s| - 1])
    requires c.status.Open? && Framed(env, c) && IsSplit(s[..|s| - 1], c.commands, c.tail)
    ensures Overflows(env.bufLen, s) <==> s[|s| - 1] != NEWLINE && |c.tail| + 1 == env.bufLen
  {
    var L, n := env.bufLen, |s| - 1;
    var k := |Join(c.commands)|;
    TailStartsLine(c.commands, c.tail);
    assert s[..n][k..] == c.tail;
    if s[n] != NEWLINE && |c.tail| + 1 == L {
      assert s[k..k + L] == c.tail + [s[n]];
      assert OverflowsAt(L, s, k);
    }
    forall i: nat | OverflowsAt(L, s, i)
      ensures s[n] != NEWLINE && |c.tail| + 1 == L
    {
      OverflowIsTail(L, s, i, k);
    }
  }

  lemma SliceOfPrefix(s: Bytes, n: nat, a: nat, b: nat)
    requires a <= b <= n <= |s|
    ensures s[..n][a..b] == s[a..b]
  {
  }

  // A new overflow ends at the last byte and starts where the last line starts.
  lemma OverflowIsTail(bufLen: nat, s: Bytes, i: nat, k: nat)
    requires 0 < bufLen && s != [] && !Overflows(bufLen, s[..|s| - 1]) && OverflowsAt(bufLen, s, i)
    requires k < |s| && LineStart(s, k) && NoNewline(s[k..|s| - 1])
    ensures i == k && |s| == k + bufLen && s[|s| - 1] != NEWLINE
  {
    var n := |s| - 1;
    var p := s[..n];
    var run, last := s[i..i + bufLen], s[k..n];
    if i + bufLen <= n {
      SliceOfPrefix(s, n, i, i + bufLen);
      assert OverflowsAt(bufLen, p, i);
      assert false;
    }
    assert run[bufLen - 1] == s[n];
    assert forall j | i <= j < i + bufLen :: s[j] == run[j - i];
    assert forall j | k <= j < n :: s[j] == last[j - k];
    assert k <= i;
  }

  lemma {:induction false} TailStartsLine(lines: seq<Bytes>, rest: Bytes)
    ensures LineStart(Join(lines) + rest, |Join(lines)|)
  {
    if lines != [] {
      var n := |lines| - 1;
      assert lines == lines[..n] + [lines[n]];
      JoinAppend(lines[..n], lines[n]);
    }
  }

  // ------------------------------------------------------------- whole connections

  function Stream(ws: seq<Wakeup>): Bytes {
    if ws == [] then [] else Concat(ws[0].chunks) + Stream(ws[1..])
  }

  // Every callback ended because there was nothing more to read yet.
  predicate Quiet(ws: seq<Wakeup>) {
    forall i | 0 <= i < |ws| :: ws[i].end == WouldBlock
  }

  // How many bytes of saved tails the run lost because the allocation failed.
  function Dropped(env: Env, c: Conn, ws: seq<Wakeup>): nat
    decreases |ws|
  {
    if ws == [] then 0
    else
      var d := Feed(env, c, Concat(ws[0].chunks));
      (if d.status.Open? && !ws[0].mallocOk then |d.tail| else 0)
        + Dropped(env, Callback(env, c, ws[0]), ws[1..])
  }

  // A quiet run that loses no tail is the byte machine on the concatenated stream,
  // however the stream was cut into reads and callbacks, and whatever the handlers do.
  lemma {:induction false} RunIsFeed(env: Env, c: Conn, ws: seq<Wakeup>)
    requires Quiet(ws) && Dropped(env, c, ws) == 0
    ensures Run(env, c, ws) == Feed(env, c, Stream(ws))
    decreases |ws|
  {
    if ws != [] {
      var d := Feed(env, c, Concat(ws[0].chunks));
      assert Callback(env, c, ws[0]) == d;
      assert Quiet(ws[1..]);
      RunIsFeed(env, d, ws[1..]);
      FeedConcat(env, c, Concat(ws[0].chunks), Stream(ws[1..]));
    }
  }

  // Chunking independence: two runs over the same bytes end in the same state.
  lemma ChunkingIndependence(env: Env, ws1: seq<Wakeup>, ws2: seq<Wakeup>)
    requires Quiet(ws1) && Quiet(ws2) && Stream(ws1) == Stream(ws2)
    requires Dropped(env, ACCEPTED, ws1) == 0 && Dropped(env, ACCEPTED, ws2) == 0
    ensures Run(env, ACCEPTED, ws1) == Run(env, ACCEPTED, ws2)
  {
    RunIsFeed(env, ACCEPTED, ws1);
    RunIsFeed(env, ACCEPTED, ws2);
  }

  // Bytes an open connection accounts for.
  function Accounted(c: Conn): nat {
    |Join(c.commands)| + |c.tail|
  }

  lemma {:induction false} FeedAccounts(env: Env, c: Conn, s: Bytes)
    requires Feed(env, c, s).status.Open?
    ensures c.status.Open? && Accounted(Feed(env, c, s)) == Accounted(c) + |s|
    decreases |s|
  {
    if !c.status.Open? {
      FeedClosed(env, c, s);
    } else if s != [] {
      FeedAccounts(env, FeedByte(env, c, s[0]), s[1..]);
      if s[0] == NEWLINE { JoinAppend(c.commands, c.tail); }
    }
  }

  lemma {:induction false} RunClosed(env: Env, c: Conn, ws: seq<Wakeup>)
    requires !c.status.Open?
    ensures Run(env, c, ws) == c
    decreases |ws|
  {
    if ws != [] {
      FeedClosed(env, c, Concat(ws[0].chunks));
      RunClosed(env, c, ws[1..]);
    }
  }

  lemma {:induction false} RunAccounts(env: Env, c: Conn, ws: seq<Wakeup>)
    requires Run(env, c, ws).status.Open?
    ensures c.status.Open? && Quiet(ws)
    ensures Accounted(Run(env, c, ws)) + Dropped(env, c, ws) == Accounted(c) + |Stream(ws)|
    decreases |ws|
  {
    if ws != [] {
      var w := ws[0];
      var d := Feed(env, c, Concat(w.chunks));
      var e := Callback(env, c, w);
      if !e.status.Open? { RunClosed(env, e, ws[1..]); }
      RunAccounts(env, e, ws[1..]);
      FeedAccounts(env, c, Concat(w.chunks));
      forall i | 0 <= i < |ws| ensures ws[i].end == WouldBlock {
        if i > 0 { assert ws[i] == ws[1..][i - 1]; }
      }
    }
  }

  // The framing is right on a connection that is still open exactly when no tail was lost.
  lemma SplitIffNothingDropped(env: Env, ws: seq<Wakeup>)
    requires 0 < env.bufLen
    requires Run(env, ACCEPTED, ws).status.Open?
    ensures var c := Run(env, ACCEPTED, ws);
            IsSplit(Stream(ws), c.commands, c.tail) <==> Dropped(env, ACCEPTED, ws) == 0
  {
    var c := Run(env, ACCEPTED, ws);
    RunAccounts(env, ACCEPTED, ws);
    if Dropped(env, ACCEPTED, ws) == 0 {
      RunIsFeed(env, ACCEPTED, ws);
      FeedSplits(env, Stream(ws));
    } else {
      assert |Join(c.commands) + c.tail| < |Stream(ws)|;
    }
  }

  // "Too large" over a whole run: decided by the stream, not by how it was cut.
  lemma RunTooLargeExactly(env: Env, ws: seq<Wakeup>)
    requires 0 < env.bufLen && forall i: nat :: env.handlerOk(i)
    requires Quiet(ws) && Dropped(env, ACCEPTED, ws) == 0
    ensures Run(env, ACCEPTED, ws).status ==
            if Overflows(env.bufLen, Stream(ws)) then TooLarge else Open
  {
    RunIsFeed(env, ACCEPTED, ws);
    TooLargeExactly(env, Stream(ws));
  }

  // A line of at most BUF_LEN - 1 bytes is delivered; more precisely, a stream made of
  // such lines is delivered line for line.
  lemma {:induction false} ShortLinesDelivered(env: Env, cs: seq<Bytes>, lines: seq<Bytes>)
    requires forall i: nat :: env.handlerOk(i)
    requires forall i | 0 <= i < |lines| :: NoNewline(lines[i]) && |lines[i]| < env.bufLen
    ensures Feed(env, Conn(Open, [], cs), Join(lines)) == Conn(Open, [], cs + lines)
    decreases |lines|
  {
    if lines == [] {
      assert cs + lines == cs;
    } else {
      FeedLine(env, cs, lines[0], Join(lines[1..]));
      ShortLinesDelivered(env, cs + [lines[0]], lines[1..]);
      assert cs + [lines[0]] + lines[1..] == cs + lines;
    }
  }

  lemma {:induction false} RunSnoc(env: Env, c: Conn, ws: seq<Wakeup>, w: Wakeup)
    ensures Run(env, c, ws + [w]) == Callback(env, Run(env, c, ws), w)
    decreases |ws|
  {
    if ws == [] {
      assert [] + [w] == [w] && [w][1..] == [];
      assert Run(env, Callback(env, c, w), []) == Callback(env, c, w);
    } else {
      assert (ws + [w])[1..] == ws[1..] + [w];
      RunSnoc(env, Callback(env, c, ws[0]), ws[1..], w);
    }
  }

  lemma {:induction false} StreamSnoc(ws: seq<Wakeup>, w: Wakeup)
    ensures Stream(ws + [w]) == Stream(ws) + Concat(w.chunks)
  {
    if ws == [] {
      assert [] + [w] == [w] && [w][1..] == [];
    } else {
      assert (ws + [w])[1..] == ws[1..] + [w];
      StreamSnoc(ws[1..], w);
    }
  }

  lemma {:induction false} DroppedSnoc(env: Env, c: Conn, ws: seq<Wakeup>, w: Wakeup)
    requires w.mallocOk
    ensures Dropped(env, c, ws + [w]) == Dropped(env, c, ws)
    decreases |ws|
  {
    if ws == [] {
      assert [] + [w] == [w] && [w][1..] == [];
    } else {
      assert (ws + [w])[1..] == ws[1..] + [w];
      DroppedSnoc(env, Callback(env, c, ws[0]), ws[1..], w);
    }
  }

  // At end of file, and on a read error, everything read has been framed: right if and only
  // if no tail had been lost before.
  lemma LastReadFramed(env: Env, ws: seq<Wakeup>, w: Wakeup)
    requires 0 < env.bufLen
    requires Run(env, ACCEPTED, ws).status.Open?
    requires Run(env, ACCEPTED, ws + [w]).status in {PeerClosed, ReadFailed}
    ensures var c := Run(env, ACCEPTED, ws + [w]);
            && (IsSplit(Stream(ws + [w]), c.commands, c.tail) <==> Dropped(env, ACCEPTED, ws) == 0)
            && (c.status == PeerClosed <==> w.end == Eof)
            && (c.status == ReadFailed <==> w.end == Error)
  {
    // the same reads, ended by would-block instead
    var v := w.(end := WouldBlock, mallocOk := true);
    var c := Run(env, ACCEPTED, ws);
    RunSnoc(env, ACCEPTED, ws, w);
    EndedLikeOpen(env, c, w, v);
    RunSnoc(env, ACCEPTED, ws, v);
    StreamSnoc(ws, w);
    StreamSnoc(ws, v);
    DroppedSnoc(env, ACCEPTED, ws, v);
    SplitIffNothingDropped(env, ws + [v]);
  }

  // End of file and read errors come after all that was read has been framed.
  lemma EndedLikeOpen(env: Env, c: Conn, w: Wakeup, v: Wakeup)
    requires c.status.Open? && Callback(env, c, w).status in {PeerClosed, ReadFailed}
    requires v == Wakeup(w.chunks, WouldBlock, true)
    ensures var d, e := Callback(env, c, v), Callback(env, c, w);
            d.status.Open? && d.commands == e.commands && d.tail == e.tail
  {
    FeedEnds(env, c, Concat(w.chunks));
  }

  // The bytes themselves never close a connection as end of file or read error would.
  lemma {:induction false} FeedEnds(env: Env, c: Conn, s: Bytes)
    requires c.status in {Open, TooLarge, HandlerFailed}
    ensures Feed(env, c, s).status in {Open, TooLarge, HandlerFailed}
    decreases |s|
  {
    if s != [] { FeedEnds(env, FeedByte(env, c, s[0]), s[1..]); }
  }

  // How a connection ends, when no tail was lost before: what it has handed on and what it
  // holds are a prefix of what was read -- all of it at end of file or on a read error, up to
  // the overlong line on overflow, up to the refused command when a handler fails.
  lemma ClosingCallback(env: Env, ws: seq<Wakeup>, w: Wakeup)
    requires 0 < env.bufLen && Dropped(env, ACCEPTED, ws) == 0
    requires Run(env, ACCEPTED, ws).status.Open? && !Run(env, ACCEPTED, ws + [w]).status.Open?
    ensures var c := Run(env, ACCEPTED, ws + [w]);
            && Join(c.commands) + c.tail <= Stream(ws + [w])
            && (forall i | 0 <= i < |c.commands| :: NoNewline(c.commands[i]) && |c.commands[i]| < env.bufLen)
            && (c.status.PeerClosed? || c.status.ReadFailed? ==> IsSplit(Stream(ws + [w]), c.commands, c.tail))
            && (c.status.TooLarge? ==> NoNewline(c.tail) && |c.tail| == env.bufLen)
            && HandlersAnswered(env, c)
            && EndedBy(c.status, w.end)
  {
    RunAccounts(env, ACCEPTED, ws);
    RunIsFeed(env, ACCEPTED, ws);
    RunSnoc(env, ACCEPTED, ws, w);
    StreamSnoc(ws, w);
    FeedConcat(env, ACCEPTED, Stream(ws), Concat(w.chunks));
    FeedSplits(env, Stream(ws + [w]));
    FeedAnswered(env, ACCEPTED, Stream(ws + [w]));
  }

  // Only end of file is taken for an orderly close and only a failing read for a failure; a
  // connection stays open only when the reads ended for want of data.
  ghost predicate EndedBy(status: Status, end: ReadEnd) {
    && (status == PeerClosed ==> end == Eof)
    && (status == ReadFailed ==> end == Error)
    && (status == Open ==> end == WouldBlock)
  }

  // Which way a callback on an open connection ends: its bytes decide first -- an overlong
  // line or a refused command -- and otherwise what the last read said.
  lemma CallbackEnds(env: Env, c: Conn, w: Wakeup)
    requires c.status.Open?
    ensures var s := Callback(env, c, w).status;
            && EndedBy(s, w.end)
            && (s in {TooLarge, HandlerFailed} <==> Feed(env, c, Concat(w.chunks)).status != Open)
  {
    FeedEnds(env, c, Concat(w.chunks));
  }

  // All commands were accepted, but for the last one of a connection that failed in a
  // handler; behind that one nothing is held.
  ghost predicate HandlersAnswered(env: Env, c: Conn) {
    if c.status.HandlerFailed? then
      && c.tail == [] && c.commands != []
      && !env.handlerOk(|c.commands| - 1) && forall i | 0 <= i < |c.commands| - 1 :: env.handlerOk(i)
    else forall i | 0 <= i < |c.commands| :: env.handlerOk(i)
  }

  lemma {:induction false} FeedAnswered(env: Env, c: Conn, s: Bytes)
    requires HandlersAnswered(env, c)
    ensures HandlersAnswered(env, Feed(env, c, s))
    decreases |s|
  {
    if s != [] { FeedAnswered(env, FeedByte(env, c, s[0]), s[1..]); }
  }

  lemma RunTwo(env: Env, c: Conn, w1: Wakeup, w2: Wakeup)
    ensures Run(env, c, [w1, w2]) == Callback(env, Callback(env, c, w1), w2)
  {
    assert [w1, w2][1..] == [w2] && [w2][1..] == [];
    assert Run(env, Callback(env, c, w1), [w2]) == Run(env, Callback(env, Callback(env, c, w1), w2), []);
  }

  // Why the allocation matters: the same three bytes, one failed allocation, another command.
  lemma LostTailMisframes(env: Env, saved: bool)
    requires env.bufLen > 2 && env.handlerOk(0)
    ensures Run(env, ACCEPTED, [Wakeup([[65]], WouldBlock, saved), Wakeup([[66, NEWLINE]], WouldBlock, true)])
            == Conn(Open, [], if saved then [[65, 66]] else [[66]])
  {
    var a: Chunk, b: Chunk := [65], [66, NEWLINE];
    assert Concat([a]) == a && Concat([b]) == b;
    assert a == [65] + [] && b == [66] + [NEWLINE] + [] && [65] + b == [65, 66] + [NEWLINE] + [];
    FeedPlain(env, ACCEPTED, a);
    FeedLine(env, [], [66], []);
    FeedReloaded(env, Conn(Open, [65], []), b);
    FeedLine(env, [], [65, 66], []);
    RunTwo(env, ACCEPTED, Wakeup([a], WouldBlock, saved), Wakeup([b], WouldBlock, true));
  }
}
