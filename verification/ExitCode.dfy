// The accounting behind the exit status of the two programs: which subtests run, how each
// ends, what rval is when the event loop stops, and what the process reports of it.
module ExitCode {
  import opened Wrappers

  // A subtest object; identity is what list.remove compares.
  type Subtest = nat

  datatype Side = Alice | Bob

  // What subtest.answer does with an INVITE.
  datatype Answer = Accepts | RaisesAuthRequired | RaisesAuthFailed | RaisesValidationFailure

  datatype Request = Request(inDialog: bool, isInvite: bool, cld: string, answer: Answer)

  datatype Response =
    Answered | Unauthorized401 | AuthFailed403 | NotFound404 | NoDialog481 | NotImplemented501 | Raised

  // rval, subtests_running, the loop flag, how many subtest objects were made, and -- as
  // history -- the rval of each subtest that reported done, in that order.
  datatype Core = Core(rval: int, running: seq<Subtest>, stopped: bool, made: nat, outcomes: seq<int>)

  datatype Event = Done(subtest: Subtest, rval: int) | Receive(req: Request) | Timeout

  // list.remove for a member: the first occurrence goes
  function Remove(xs: seq<Subtest>, x: Subtest): seq<Subtest>
    requires x in xs
  {
    if xs[0] == x then xs[1..] else [xs[0]] + Remove(xs[1..], x)
  }

  // subtest_done; list.remove raises for a subtest that is not in the list
  function SubtestDone(side: Side, c: Core, x: Subtest, r: int): Core {
    if x !in c.running then c
    else
      var running := Remove(c.running, x);
      Core(if r == 0 then c.rval - 1 else c.rval, running, c.stopped || (side == Alice && running == []),
           c.made, c.outcomes + [r])
  }

  // recvRequest: an admitted subtest counts at once, and a challenged one is taken back
  function RecvRequest(tests: seq<string>, c: Core, q: Request): Core {
    if q.inDialog || !q.isInvite || q.cld !in tests then c
    else if q.answer == RaisesAuthRequired then c.(made := c.made + 1)
    else c.(rval := c.rval + 1, running := c.running + [c.made], made := c.made + 1)
  }

  function TimedOut(side: Side, c: Core): Core {
    c.(rval := if side == Bob && c.running == [] && c.rval == 1 then 0 else c.rval, stopped := true)
  }

  // Alice makes all her subtests before the loop starts and answers every request with 501.
  function Step(side: Side, tests: seq<string>, c: Core, e: Event): Core {
    if c.stopped then c
    else match e
      case Done(x, r) => SubtestDone(side, c, x, r)
      case Receive(q) => if side == Bob then RecvRequest(tests, c, q) else c
      case Timeout => TimedOut(side, c)
  }

  function Run(side: Side, tests: seq<string>, c: Core, es: seq<Event>): Core
    decreases |es|
  {
    if es == [] then c else Run(side, tests, Step(side, tests, c, es[0]), es[1..])
  }

  function Started(side: Side, n: nat): Core {
    match side
    case Alice => Core(n, seq(n, i => i), false, n, [])
    case Bob => Core(1, [], false, 0, [])
  }

  function Failures(outcomes: seq<int>): nat {
    if outcomes == [] then 0
    else Failures(outcomes[..|outcomes| - 1]) + if outcomes[|outcomes| - 1] != 0 then 1 else 0
  }

  function Base(side: Side): nat {
    if side == Bob then 1 else 0
  }

  // rval counts what is running and what failed; Bob's has one more until the timeout.
  ghost predicate Conserved(side: Side, c: Core) {
    && (forall x | x in c.running :: x < c.made)
    && (c.rval == Base(side) + |c.running| + Failures(c.outcomes)
        || (side == Bob && c.stopped && c.rval == 0 && c.running == [] && Failures(c.outcomes) == 0))
    && (side == Bob && c.stopped ==> c.rval != 1)
  }

  lemma {:induction false} RemoveContents(xs: seq<Subtest>, x: Subtest)
    requires x in xs
    ensures |Remove(xs, x)| == |xs| - 1
    ensures forall y | y in Remove(xs, x) :: y in xs
    ensures multiset(Remove(xs, x)) == multiset(xs) - multiset{x}
  {
    assert xs == [xs[0]] + xs[1..];
    if xs[0] != x { RemoveContents(xs[1..], x); }
  }

  lemma RemoveMembers(xs: seq<Subtest>, x: Subtest)
    requires x in xs
    ensures forall y | y in Remove(xs, x) :: y in xs
  {
    RemoveContents(xs, x);
  }

  lemma StepConserved(side: Side, tests: seq<string>, c: Core, e: Event)
    requires Conserved(side, c)
    ensures Conserved(side, Step(side, tests, c, e))
  {
    if !c.stopped && e.Done? && e.subtest in c.running {
      RemoveContents(c.running, e.subtest);
      assert (c.outcomes + [e.rval])[..|c.outcomes|] == c.outcomes;
    }
  }

  lemma {:induction false} RunConserved(side: Side, tests: seq<string>, c: Core, es: seq<Event>)
    requires Conserved(side, c)
    ensures Conserved(side, Run(side, tests, c, es))
    decreases |es|
  {
    if es != [] {
      StepConserved(side, tests, c, es[0]);
      RunConserved(side, tests, Step(side, tests, c, es[0]), es[1..]);
    }
  }

  lemma {:induction false} NoFailures(outcomes: seq<int>)
    ensures Failures(outcomes) == 0 <==> forall i | 0 <= i < |outcomes| :: outcomes[i] == 0
  {
    if outcomes != [] {
      var n := |outcomes| - 1;
      NoFailures(outcomes[..n]);
      assert forall i | 0 <= i < n :: outcomes[..n][i] == outcomes[i];
    }
  }

  // Whatever the order of completions, challenges, refusals and stray requests: when the
  // loop has stopped, rval is 0 exactly when nothing is left running and every subtest that
  // reported done reported 0.
  lemma ExitZeroExactly(side: Side, tests: seq<string>, n: nat, es: seq<Event>)
    requires Run(side, tests, Started(side, n), es).stopped
    ensures var c := Run(side, tests, Started(side, n), es);
            c.rval == 0 <==> c.running == [] && forall i | 0 <= i < |c.outcomes| :: c.outcomes[i] == 0
  {
    RunConserved(side, tests, Started(side, n), es);
    NoFailures(Run(side, tests, Started(side, n), es).outcomes);
  }

  // Which requests Bob makes a subtest for.
  predicate Admits(tests: seq<string>, q: Request) {
    !q.inDialog && q.isInvite && q.cld in tests
  }

  // How many requests were admitted and not challenged before the timeout.
  function Kept(tests: seq<string>, es: seq<Event>): nat {
    if es == [] || es[0].Timeout? then 0
    else (if es[0].Receive? && Admits(tests, es[0].req) && es[0].req.answer != RaisesAuthRequired then 1 else 0)
         + Kept(tests, es[1..])
  }

  // Nothing is lost: every kept subtest is either still running or has reported once.
  lemma {:induction false} BobKeepsAll(tests: seq<string>, c: Core, es: seq<Event>)
    requires !c.stopped
    ensures var r := Run(Bob, tests, c, es);
            |r.running| + |r.outcomes| == |c.running| + |c.outcomes| + Kept(tests, es)
    decreases |es|
  {
    if es != [] {
      var d := Step(Bob, tests, c, es[0]);
      if d.stopped {
        StoppedStays(Bob, tests, d, es[1..]);
      } else {
        BobKeepsAll(tests, d, es[1..]);
        if es[0].Done? && es[0].subtest in c.running { RemoveContents(c.running, es[0].subtest); }
      }
    }
  }

  lemma {:induction false} AliceKeepsAll(tests: seq<string>, c: Core, es: seq<Event>)
    ensures var r := Run(Alice, tests, c, es);
            |r.running| + |r.outcomes| == |c.running| + |c.outcomes|
    decreases |es|
  {
    if es != [] {
      AliceKeepsAll(tests, Step(Alice, tests, c, es[0]), es[1..]);
      if es[0].Done? && es[0].subtest in c.running { RemoveContents(c.running, es[0].subtest); }
    }
  }

  // -------------------------------------------------------- the same, read off the events

  // The first report of subtest x is a 0 and comes before the timeout.
  ghost predicate ReportsZeroAt(x: Subtest, es: seq<Event>, j: nat) {
    && j < |es| && es[j] == Done(x, 0)
    && forall i | 0 <= i < j :: !es[i].Timeout? && !(es[i].Done? && es[i].subtest == x)
  }

  ghost predicate ReportsZero(x: Subtest, es: seq<Event>) {
    exists j: nat :: ReportsZeroAt(x, es, j)
  }

  lemma ReportsZeroTail(x: Subtest, es: seq<Event>)
    requires es != []
    ensures ReportsZero(x, es) <==>
            || es[0] == Done(x, 0)
            || (!es[0].Timeout? && !(es[0].Done? && es[0].subtest == x) && ReportsZero(x, es[1..]))
  {
    if es[0] == Done(x, 0) { assert ReportsZeroAt(x, es, 0); }
    forall j: nat | ReportsZeroAt(x, es, j) && j > 0 ensures ReportsZeroAt(x, es[1..], j - 1) {
      assert forall i | 0 <= i < j - 1 :: es[1..][i] == es[i + 1];
    }
    forall j: nat | ReportsZeroAt(x, es[1..], j) && !es[0].Timeout? && !(es[0].Done? && es[0].subtest == x)
      ensures ReportsZeroAt(x, es, j + 1)
    {
      assert forall i | 0 < i <= j :: es[i] == es[1..][i - 1];
    }
  }

  // How many subtests Bob made; the next one gets that number.
  function Admitted(tests: seq<string>, es: seq<Event>): nat {
    if es == [] then 0
    else (if es[0].Receive? && Admits(tests, es[0].req) then 1 else 0) + Admitted(tests, es[1..])
  }

  predicate KeptAt(tests: seq<string>, es: seq<Event>, i: nat) {
    && i < |es| && es[i].Receive? && Admits(tests, es[i].req) && es[i].req.answer != RaisesAuthRequired
    && Timeout !in es[..i]
  }

  // Every kept request led to a subtest whose first report is a 0; made is how many subtests
  // there were before.
  ghost predicate AllKeptReportZero(tests: seq<string>, made: nat, es: seq<Event>) {
    forall i: nat | KeptAt(tests, es, i) :: ReportsZero(made + Admitted(tests, es[..i]), es[i + 1..])
  }

  lemma AllKeptTail(tests: seq<string>, made: nat, es: seq<Event>)
    requires es != []
    ensures AllKeptReportZero(tests, made, es) <==>
            || es[0].Timeout?
            || (&& (KeptAt(tests, es, 0) ==> ReportsZero(made, es[1..]))
                && AllKeptReportZero(tests, made + Admitted(tests, [es[0]]), es[1..]))
  {
    assert Admitted(tests, [es[0]][1..]) == 0;
    assert es[..0] == [];
    forall i: nat | i < |es| - 1
      ensures KeptAt(tests, es, i + 1) <==> !es[0].Timeout? && KeptAt(tests, es[1..], i)
      ensures Admitted(tests, es[..i + 1]) == Admitted(tests, [es[0]]) + Admitted(tests, es[1..][..i])
      ensures es[i + 1 + 1..] == es[1..][i + 1..]
    {
      assert es[..i + 1] == [es[0]] + es[1..][..i];
      assert es[..i + 1][1..] == es[1..][..i];
    }
    forall i: nat | KeptAt(tests, es, i) && i > 0 && AllKeptReportZero(tests, made + Admitted(tests, [es[0]]), es[1..])
      ensures ReportsZero(made + Admitted(tests, es[..i]), es[i + 1..])
    {
      assert KeptAt(tests, es[1..], i - 1);
    }
    forall i: nat | KeptAt(tests, es[1..], i) && !es[0].Timeout? && AllKeptReportZero(tests, made, es)
      ensures ReportsZero(made + Admitted(tests, [es[0]]) + Admitted(tests, es[1..][..i]), es[1..][i + 1..])
    {
      assert KeptAt(tests, es, i + 1);
    }
  }

  // Subtests are told apart, and new ones are new.
  ghost predicate Apart(c: Core) {
    (forall x | x in c.running :: x < c.made) && forall x :: multiset(c.running)[x] <= 1
  }

  lemma DoneApart(c: Core, x: Subtest)
    requires Apart(c) && x in c.running
    ensures forall y :: y in Remove(c.running, x) <==> y in c.running && y != x
    ensures forall y :: multiset(Remove(c.running, x))[y] <= 1
  {
    RemoveContents(c.running, x);
    forall y ensures y in Remove(c.running, x) <==> y in c.running && y != x {
      assert y in Remove(c.running, x) <==> multiset(Remove(c.running, x))[y] > 0;
      assert y in c.running <==> multiset(c.running)[y] > 0;
    }
  }

  lemma {:induction false} FailuresStay(side: Side, tests: seq<string>, c: Core, es: seq<Event>)
    ensures Failures(Run(side, tests, c, es).outcomes) >= Failures(c.outcomes)
    decreases |es|
  {
    if es != [] {
      var d := Step(side, tests, c, es[0]);
      if d.outcomes != c.outcomes { assert d.outcomes[..|c.outcomes|] == c.outcomes; }
      FailuresStay(side, tests, d, es[1..]);
    }
  }

  ghost predicate RunningReportZero(c: Core, es: seq<Event>) {
    forall x | x in c.running :: ReportsZero(x, es)
  }

  ghost predicate Succeeds(side: Side, tests: seq<string>, c: Core, es: seq<Event>) {
    && Failures(c.outcomes) == 0 && RunningReportZero(c, es)
    && (side == Bob ==> AllKeptReportZero(tests, c.made, es))
  }

  lemma DoneSucceeds(side: Side, tests: seq<string>, c: Core, es: seq<Event>)
    requires !c.stopped && Apart(c) && es != [] && es[0].Done? && es[0].subtest in c.running && es[0].rval == 0
    ensures var d := Step(side, tests, c, es[0]);
            Apart(d) && (Succeeds(side, tests, c, es) <==> Succeeds(side, tests, d, es[1..]))
  {
    var x := es[0].subtest;
    var d := Step(side, tests, c, es[0]);
    DoneApart(c, x);
    AllKeptTail(tests, c.made, es);
    assert d.outcomes[..|c.outcomes|] == c.outcomes;
    forall y | y in c.running ensures ReportsZero(y, es) <==> y == x || ReportsZero(y, es[1..]) {
      ReportsZeroTail(y, es);
    }
    assert Admitted(tests, [es[0]][1..]) == 0;
  }

  lemma StrayDoneSucceeds(side: Side, tests: seq<string>, c: Core, es: seq<Event>)
    requires es != [] && es[0].Done? && es[0].subtest !in c.running
    ensures Succeeds(side, tests, c, es) <==> Succeeds(side, tests, c, es[1..])
  {
    AllKeptTail(tests, c.made, es);
    forall y | y in c.running ensures ReportsZero(y, es) <==> ReportsZero(y, es[1..]) {
      ReportsZeroTail(y, es);
    }
    assert Admitted(tests, [es[0]][1..]) == 0;
  }

  lemma ReceiveSucceeds(side: Side, tests: seq<string>, c: Core, es: seq<Event>)
    requires !c.stopped && Apart(c) && es != [] && es[0].Receive?
    ensures var d := Step(side, tests, c, es[0]);
            Apart(d) && (Succeeds(side, tests, c, es) <==> Succeeds(side, tests, d, es[1..]))
  {
    var d := Step(side, tests, c, es[0]);
    AllKeptTail(tests, c.made, es);
    assert Admitted(tests, [es[0]][1..]) == 0;
    forall y | y in c.running ensures ReportsZero(y, es) <==> ReportsZero(y, es[1..]) {
      ReportsZeroTail(y, es);
    }
    if d.running != c.running {
      assert forall y :: multiset(d.running)[y] == multiset(c.running)[y] + if y == c.made then 1 else 0;
      assert c.made !in c.running;
      assert multiset(c.running)[c.made] == 0;
      assert forall y :: y in d.running <==> y in c.running || y == c.made;
    }
  }

  lemma TimeoutSucceeds(side: Side, tests: seq<string>, c: Core, es: seq<Event>)
    requires es != [] && es[0].Timeout?
    ensures Succeeds(side, tests, c, es) <==> c.running == [] && Failures(c.outcomes) == 0
  {
    AllKeptTail(tests, c.made, es);
    forall y | y in c.running ensures !ReportsZero(y, es) {
      ReportsZeroTail(y, es);
    }
    if c.running != [] { assert c.running[0] in c.running; }
  }

  lemma FailureSucceedsNot(side: Side, tests: seq<string>, c: Core, es: seq<Event>)
    requires !c.stopped && es != [] && es[0].Done? && es[0].subtest in c.running && es[0].rval != 0
    ensures Failures(Run(side, tests, c, es).outcomes) > 0 && !Succeeds(side, tests, c, es)
  {
    var d := Step(side, tests, c, es[0]);
    assert d.outcomes[..|c.outcomes|] == c.outcomes;
    FailuresStay(side, tests, d, es[1..]);
    ReportsZeroTail(es[0].subtest, es);
  }

  // From any moment on: nothing is left running and nothing has failed at the end if and only
  // if that is what the events say.
  lemma {:induction false} SucceedsExactly(side: Side, tests: seq<string>, c: Core, es: seq<Event>)
    requires !c.stopped && Apart(c) && Run(side, tests, c, es).stopped
    ensures var r := Run(side, tests, c, es);
            r.running == [] && Failures(r.outcomes) == 0 <==> Succeeds(side, tests, c, es)
    decreases |es|
  {
    var e, d := es[0], Step(side, tests, c, es[0]);
    if e.Timeout? {
      StoppedStays(side, tests, d, es[1..]);
      TimeoutSucceeds(side, tests, c, es);
    } else if e.Done? && e.subtest in c.running && e.rval != 0 {
      FailureSucceedsNot(side, tests, c, es);
    } else {
      if e.Receive? {
        ReceiveSucceeds(side, tests, c, es);
      } else if e.subtest in c.running {
        DoneSucceeds(side, tests, c, es);
      } else {
        StrayDoneSucceeds(side, tests, c, es);
      }
      if d.stopped {
        StoppedStays(side, tests, d, es[1..]);
        EmptySucceeds(side, tests, c, d, es);
      } else {
        SucceedsExactly(side, tests, d, es[1..]);
      }
    }
  }

  // Alice stops by herself only with nothing left to wait for.
  lemma EmptySucceeds(side: Side, tests: seq<string>, c: Core, d: Core, es: seq<Event>)
    requires !c.stopped && es != [] && !es[0].Timeout? && d == Step(side, tests, c, es[0]) && d.stopped
    ensures d.running == [] && (Succeeds(side, tests, d, es[1..]) <==> Failures(d.outcomes) == 0)
  {
  }

  // Alice's loop stops at her timeout or when the last of her subtests is done, whichever is
  // first; with no subtest at all, and for Bob always, at the timeout only.
  lemma {:induction false} StopsExactly(side: Side, tests: seq<string>, c: Core, es: seq<Event>)
    requires !c.stopped
    ensures var r := Run(side, tests, c, es);
            r.stopped <==> Timeout in es || (side == Alice && c.running != [] && r.running == [])
    decreases |es|
  {
    if es != [] {
      var d := Step(side, tests, c, es[0]);
      assert es == [es[0]] + es[1..];
      if d.stopped {
        StoppedStays(side, tests, d, es[1..]);
      } else {
        StopsExactly(side, tests, d, es[1..]);
        if side == Alice && c.running == [] { EmptyStays(tests, d, es[1..]); }
      }
    }
  }

  lemma {:induction false} EmptyStays(tests: seq<string>, c: Core, es: seq<Event>)
    requires c.running == []
    ensures Run(Alice, tests, c, es).running == []
    decreases |es|
  {
    if es != [] { EmptyStays(tests, Step(Alice, tests, c, es[0]), es[1..]); }
  }

  ghost predicate AllReportZero(n: nat, es: seq<Event>) {
    forall x: Subtest | x < n :: ReportsZero(x, es)
  }

  lemma StartedApart(n: nat)
    ensures Apart(Started(Alice, n)) && forall x: Subtest :: x in Started(Alice, n).running <==> x < n
  {
    var xs := Started(Alice, n).running;
    forall x ensures multiset(xs)[x] <= 1 {
      NumbersOnce(n, x);
    }
    forall x: Subtest | x < n ensures x in xs {
      assert xs[x] == x;
    }
  }

  lemma {:induction false} NumbersOnce(n: nat, x: nat)
    ensures multiset(seq(n, i => i))[x] == if x < n then 1 else 0
  {
    if n > 0 {
      NumbersOnce(n - 1, x);
      assert seq(n, i => i) == seq(n - 1, i => i) + [n - 1];
    }
  }

  // Alice's rval ends as 0 exactly when the first report of each of the n scheduled subtests
  // is a 0 and comes before the timeout.
  lemma AliceRvalZero(tests: seq<string>, n: nat, es: seq<Event>)
    requires Run(Alice, tests, Started(Alice, n), es).stopped
    ensures Run(Alice, tests, Started(Alice, n), es).rval == 0 <==> AllReportZero(n, es)
  {
    var s := Started(Alice, n);
    StartedApart(n);
    RunConserved(Alice, tests, s, es);
    SucceedsExactly(Alice, tests, s, es);
  }

  // Bob's rval, after his timeout, is 0 exactly when every request he admitted and did not
  // challenge led to a subtest whose first report is a 0.
  lemma BobRvalZero(tests: seq<string>, es: seq<Event>)
    requires Run(Bob, tests, Started(Bob, 0), es).stopped
    ensures Run(Bob, tests, Started(Bob, 0), es).rval == 0 <==> AllKeptReportZero(tests, 0, es)
  {
    var s := Started(Bob, 0);
    RunConserved(Bob, tests, s, es);
    SucceedsExactly(Bob, tests, s, es);
  }

  // ------------------------------------------------------------------- the exit status

  // Both programs end in sys.exit(rval), of which POSIX keeps the low eight bits.
  function ExitStatus(rval: int): (status: int)
    ensures 0 <= status < 256 && (0 <= rval < 256 ==> status == rval)
  {
    rval % 256
  }

  // What the process reports: 0 also when what is left over is a multiple of 256.
  lemma StatusZeroExactly(side: Side, tests: seq<string>, n: nat, es: seq<Event>)
    requires Run(side, tests, Started(side, n), es).stopped
    ensures var c := Run(side, tests, Started(side, n), es);
            ExitStatus(c.rval) == 0
            <==> |c.running| + Failures(c.outcomes) == 0
                 || (Base(side) + |c.running| + Failures(c.outcomes)) % 256 == 0
  {
    RunConserved(side, tests, Started(side, n), es);
  }

  // The status of a stopped Alice is 0 if and only if all her n subtests reported 0.
  ghost predicate AliceIsRight(tests: seq<string>, n: nat, es: seq<Event>) {
    var c := Run(Alice, tests, Started(Alice, n), es);
    c.stopped ==> (ExitStatus(c.rval) == 0 <==> AllReportZero(n, es))
  }

  // The status of a stopped Bob is 0 if and only if all he kept reported 0.
  ghost predicate BobIsRight(tests: seq<string>, es: seq<Event>) {
    var c := Run(Bob, tests, Started(Bob, 0), es);
    c.stopped ==> (ExitStatus(c.rval) == 0 <==> AllKeptReportZero(tests, 0, es))
  }

  lemma {:induction false} RunConcat(side: Side, tests: seq<string>, c: Core, es: seq<Event>, fs: seq<Event>)
    ensures Run(side, tests, c, es + fs) == Run(side, tests, Run(side, tests, c, es), fs)
    decreases |es|
  {
    if es == [] {
      assert es + fs == fs;
    } else {
      assert (es + fs)[0] == es[0] && (es + fs)[1..] == es[1..] + fs;
      RunConcat(side, tests, Step(side, tests, c, es[0]), es[1..], fs);
    }
  }

  function Successes(xs: seq<Subtest>): seq<Event> {
    seq(|xs|, i requires 0 <= i < |xs| => Done(xs[i], 0))
  }

  // The first k subtests finish well, the others are still running.
  lemma {:induction false} FirstSucceed(side: Side, tests: seq<string>, c: Core, k: nat)
    requires !c.stopped && k < |c.running|
    ensures var r := Run(side, tests, c, Successes(c.running[..k]));
            !r.stopped && r.rval == c.rval - k && r.running == c.running[k..] && |r.outcomes| == |c.outcomes| + k
    decreases k
  {
    if k > 0 {
      var d := Step(side, tests, c, Done(c.running[0], 0));
      FirstSucceed(side, tests, d, k - 1);
      assert d.running[..k - 1] == c.running[..k][1..];
      assert Successes(c.running[..k])[1..] == Successes(d.running[..k - 1]);
    }
  }

  function Requests(q: Request, k: nat): seq<Event> {
    seq(k, _ => Receive(q))
  }

  lemma {:induction false} KeptRequests(tests: seq<string>, c: Core, q: Request, k: nat)
    requires !c.stopped && Admits(tests, q) && q.answer != RaisesAuthRequired
    ensures var r := Run(Bob, tests, c, Requests(q, k));
            !r.stopped && r.rval == c.rval + k && |r.running| == |c.running| + k && r.outcomes == c.outcomes
    decreases k
  {
    if k > 0 {
      KeptRequests(tests, RecvRequest(tests, c, q), q, k - 1);
      assert Requests(q, k)[1..] == Requests(q, k - 1);
    }
  }

  // 256 subtests still running when Alice times out, the others done: she reports success.
  lemma AliceWraps(tests: seq<string>, n: nat) returns (es: seq<Event>)
    requires n >= 256
    ensures var c := Run(Alice, tests, Started(Alice, n), es);
            c.stopped && ExitStatus(c.rval) == 0 && |c.running| == 256
  {
    var s := Started(Alice, n);
    es := Successes(s.running[..n - 256]);
    FirstSucceed(Alice, tests, s, n - 256);
    RunConcat(Alice, tests, s, es, [Timeout]);
    es := es + [Timeout];
  }

  // 255 kept requests still running when Bob times out, the others done: so does he.
  lemma BobWraps(tests: seq<string>, q: Request, k: nat) returns (es: seq<Event>)
    requires Admits(tests, q) && q.answer != RaisesAuthRequired && k >= 255
    ensures var c := Run(Bob, tests, Started(Bob, 0), es);
            c.stopped && Kept(tests, es) == k && |c.running| == 255 && ExitStatus(c.rval) == 0
  {
    var s := Started(Bob, 0);
    KeptRequests(tests, s, q, k);
    var c := Run(Bob, tests, s, Requests(q, k));
    es := Requests(q, k) + Successes(c.running[..k - 255]);
    FirstSucceed(Bob, tests, c, k - 255);
    RunConcat(Bob, tests, s, Requests(q, k), Successes(c.running[..k - 255]));
    RunConcat(Bob, tests, s, es, [Timeout]);
    es := es + [Timeout];
    BobKeepsAll(tests, s, es);
  }

  // Alice's exit status can be believed exactly when she schedules at most 255 subtests.
  lemma AliceExit(tests: seq<string>, n: nat)
    ensures (forall es :: AliceIsRight(tests, n, es)) <==> n <= 255
  {
    if n <= 255 {
      forall es ensures AliceIsRight(tests, n, es) {
        AliceStatus(tests, n, es);
      }
    } else {
      var es := AliceWraps(tests, n);
      RunConserved(Alice, tests, Started(Alice, n), es);
      AliceRvalZero(tests, n, es);
      assert !AliceIsRight(tests, n, es);
    }
  }

  lemma AliceStatus(tests: seq<string>, n: nat, es: seq<Event>)
    requires n <= 255
    ensures AliceIsRight(tests, n, es)
  {
    var c := Run(Alice, tests, Started(Alice, n), es);
    if c.stopped {
      AliceRvalZero(tests, n, es);
      RunConserved(Alice, tests, Started(Alice, n), es);
      AliceKeepsAll(tests, Started(Alice, n), es);
      FailuresBound(c.outcomes);
    }
  }

  lemma {:induction false} FailuresBound(outcomes: seq<int>)
    ensures Failures(outcomes) <= |outcomes|
  {
    if outcomes != [] { FailuresBound(outcomes[..|outcomes| - 1]); }
  }

  // Bob's can be believed exactly when he keeps at most 254 requests -- if he has a test at all.
  lemma BobExit(tests: seq<string>, k: nat)
    ensures (forall es | Kept(tests, es) == k :: BobIsRight(tests, es)) <==> k <= 254 || tests == []
  {
    if k > 254 && tests != [] {
      var es := BobWraps(tests, Request(false, true, tests[0], Accepts), k);
      RunConserved(Bob, tests, Started(Bob, 0), es);
      BobRvalZero(tests, es);
      assert !BobIsRight(tests, es);
    } else {
      forall es | Kept(tests, es) == k ensures BobIsRight(tests, es) {
        if tests == [] { NothingKept(es); }
        BobStatus(tests, es);
      }
    }
  }

  lemma {:induction false} NothingKept(es: seq<Event>)
    ensures Kept([], es) == 0
  {
    if es != [] { NothingKept(es[1..]); }
  }

  lemma BobStatus(tests: seq<string>, es: seq<Event>)
    requires Kept(tests, es) <= 254
    ensures BobIsRight(tests, es)
  {
    var c := Run(Bob, tests, Started(Bob, 0), es);
    if c.stopped {
      BobRvalZero(tests, es);
      RunConserved(Bob, tests, Started(Bob, 0), es);
      BobKeepsAll(tests, Started(Bob, 0), es);
      FailuresBound(c.outcomes);
    }
  }

  lemma {:induction false} GrowsByKept(tests: seq<string>, c: Core, es: seq<Event>)
    ensures Run(Bob, tests, c, es).rval <= c.rval + Kept(tests, es)
    decreases |es|
  {
    if es != [] {
      var d := Step(Bob, tests, c, es[0]);
      if d.stopped {
        StoppedStays(Bob, tests, d, es[1..]);
      } else {
        GrowsByKept(tests, d, es[1..]);
      }
    }
  }

  // A subtest refused with 403 never reports, so Bob's rval is not 0 -- whatever else happens
  // after it; nor is his exit status, unless the low eight bits overflow.
  lemma {:induction false} RefusedIsCounted(tests: seq<string>, c: Core, x: Subtest, es: seq<Event>)
    requires Conserved(Bob, c) && !c.stopped && x in c.running
    requires forall i | 0 <= i < |es| :: !(es[i].Done? && es[i].subtest == x)
    ensures x in Run(Bob, tests, c, es).running && 0 < Run(Bob, tests, c, es).rval <= c.rval + Kept(tests, es)
    ensures c.rval + Kept(tests, es) <= 255 ==> ExitStatus(Run(Bob, tests, c, es).rval) != 0
    decreases |es|
  {
    GrowsByKept(tests, c, es);
    if es != [] {
      var d := Step(Bob, tests, c, es[0]);
      StepConserved(Bob, tests, c, es[0]);
      if es[0].Done? && es[0].subtest in c.running {
        RemoveContents(c.running, es[0].subtest);
        assert multiset(d.running)[x] == multiset(c.running)[x] > 0;
      }
      if d.stopped {
        StoppedStays(Bob, tests, d, es[1..]);
      } else {
        RefusedIsCounted(tests, d, x, es[1..]);
      }
    }
  }

  lemma {:induction false} StoppedStays(side: Side, tests: seq<string>, c: Core, es: seq<Event>)
    requires c.stopped
    ensures Run(side, tests, c, es) == c
    decreases |es|
  {
    if es != [] { StoppedStays(side, tests, c, es[1..]); }
  }

  // ------------------------------------------------------------------ Alice's schedule

  datatype Config = Config(atype: string, test: string, signallingOnly: bool)

  function Modes(signallingOnly: bool): seq<bool> {
    if signallingOnly then [true] else [false, true]
  }

  function ForModes(atype: string, test: string, modes: seq<bool>): seq<Config> {
    if modes == [] then []
    else ForModes(atype, test, modes[..|modes| - 1]) + [Config(atype, test, modes[|modes| - 1])]
  }

  // tcfg.tests == None selects everything
  datatype Selection = All | Only(tests: seq<string>)

  predicate Selected(sel: Selection, test: string) {
    sel.All? || test in sel.tests
  }

  function ForTests(atype: string, sel: Selection, tests: seq<string>, modes: seq<bool>): seq<Config> {
    if tests == [] then []
    else
      ForTests(atype, sel, tests[..|tests| - 1], modes)
      + var t := tests[|tests| - 1]; if Selected(sel, t) then ForModes(atype, t, modes) else []
  }

  function ForTypes(ttype: seq<string>, sel: Selection, tests: seq<string>, modes: seq<bool>): seq<Config> {
    if ttype == [] then []
    else ForTypes(ttype[..|ttype| - 1], sel, tests, modes) + ForTests(ttype[|ttype| - 1], sel, tests, modes)
  }

  // a single address type is scheduled twice
  function Doubled(ttype: seq<string>): seq<string> {
    if |ttype| == 1 then ttype + ttype else ttype
  }

  function HowMany(sel: Selection, tests: seq<string>): nat {
    if tests == [] then 0
    else HowMany(sel, tests[..|tests| - 1]) + if Selected(sel, tests[|tests| - 1]) then 1 else 0
  }

  lemma OneMore(n: nat, x: nat)
    ensures (n + 1) * x == n * x + x
  {
  }

  lemma {:induction false} ForModesCount(atype: string, test: string, modes: seq<bool>)
    ensures |ForModes(atype, test, modes)| == |modes|
  {
    if modes != [] { ForModesCount(atype, test, modes[..|modes| - 1]); }
  }

  lemma {:induction false} ForTestsCount(atype: string, sel: Selection, tests: seq<string>, modes: seq<bool>)
    ensures |ForTests(atype, sel, tests, modes)| == HowMany(sel, tests) * |modes|
  {
    if tests != [] {
      var n := |tests| - 1;
      ForTestsCount(atype, sel, tests[..n], modes);
      ForModesCount(atype, tests[n], modes);
      OneMore(HowMany(sel, tests[..n]), |modes|);
    }
  }

  lemma {:induction false} ForTypesCount(ttype: seq<string>, sel: Selection, tests: seq<string>, modes: seq<bool>)
    ensures |ForTypes(ttype, sel, tests, modes)| == |ttype| * (HowMany(sel, tests) * |modes|)
  {
    if ttype != [] {
      var n := |ttype| - 1;
      ForTypesCount(ttype[..n], sel, tests, modes);
      ForTestsCount(ttype[n], sel, tests, modes);
      OneMore(n, HowMany(sel, tests) * |modes|);
    }
  }

  // How often a configuration is scheduled.
  function TimesScheduled(ttype: seq<string>, sel: Selection, tests: seq<string>, signallingOnly: bool,
                          c: Config): nat {
    if (sel.Only? && c.test !in sel.tests) || (signallingOnly && !c.signallingOnly) then 0
    else Count(ttype, c.atype) * Count(tests, c.test) * if |ttype| == 1 then 2 else 1
  }

  lemma {:induction false} ModesOften(atype: string, test: string, modes: seq<bool>, c: Config)
    ensures Count(ForModes(atype, test, modes), c) ==
            if c.atype == atype && c.test == test then Count(modes, c.signallingOnly) else 0
  {
    if modes != [] { ModesOften(atype, test, modes[..|modes| - 1], c); }
  }

  function PerType(sel: Selection, tests: seq<string>, modes: seq<bool>, c: Config): nat {
    if sel.All? || c.test in sel.tests then Count(tests, c.test) * Count(modes, c.signallingOnly) else 0
  }

  lemma PerTypeSnoc(sel: Selection, tests: seq<string>, modes: seq<bool>, c: Config)
    requires tests != []
    ensures var n := |tests| - 1;
            PerType(sel, tests, modes, c) == PerType(sel, tests[..n], modes, c) +
              if tests[n] == c.test && Selected(sel, c.test) then Count(modes, c.signallingOnly) else 0
  {
    OneMore(Count(tests[..|tests| - 1], c.test), Count(modes, c.signallingOnly));
  }

  lemma {:induction false} TestsOften(atype: string, sel: Selection, tests: seq<string>, modes: seq<bool>, c: Config)
    ensures Count(ForTests(atype, sel, tests, modes), c) ==
            if c.atype == atype then PerType(sel, tests, modes, c) else 0
  {
    if tests != [] {
      var n := |tests| - 1;
      TestsOften(atype, sel, tests[..n], modes, c);
      ModesOften(atype, tests[n], modes, c);
      PerTypeSnoc(sel, tests, modes, c);
      CountAppend(ForTests(atype, sel, tests[..n], modes),
                  if Selected(sel, tests[n]) then ForModes(atype, tests[n], modes) else [], c);
    }
  }

  lemma {:induction false} TypesOften(ttype: seq<string>, sel: Selection, tests: seq<string>, modes: seq<bool>,
                                      c: Config)
    ensures Count(ForTypes(ttype, sel, tests, modes), c) == Count(ttype, c.atype) * PerType(sel, tests, modes, c)
  {
    if ttype != [] {
      var n := |ttype| - 1;
      TypesOften(ttype[..n], sel, tests, modes, c);
      TestsOften(ttype[n], sel, tests, modes, c);
      CountAppend(ForTypes(ttype[..n], sel, tests, modes), ForTests(ttype[n], sel, tests, modes), c);
      OneMore(Count(ttype[..n], c.atype), PerType(sel, tests, modes, c));
    }
  }

  // The schedule holds what was selected, as often as it was asked for, and nothing else.
  lemma ScheduledOften(ttype: seq<string>, sel: Selection, tests: seq<string>, signallingOnly: bool, c: Config)
    ensures Count(ForTypes(Doubled(ttype), sel, tests, Modes(signallingOnly)), c)
            == TimesScheduled(ttype, sel, tests, signallingOnly, c)
  {
    TypesOften(Doubled(ttype), sel, tests, Modes(signallingOnly), c);
    DoubledOften(ttype, c.atype);
    ModesOnce(signallingOnly, c.signallingOnly);
    Reorder(Count(ttype, c.atype), if |ttype| == 1 then 2 else 1, Count(tests, c.test));
  }

  lemma Reorder(a: nat, k: nat, b: nat)
    ensures (a * k) * b == a * b * k && (a * k) * 0 == 0 && b * 1 == b && b * 0 == 0
  {
  }

  lemma DoubledOften(ttype: seq<string>, atype: string)
    ensures Count(Doubled(ttype), atype) == Count(ttype, atype) * if |ttype| == 1 then 2 else 1
  {
    CountAppend(ttype, ttype, atype);
  }

  lemma ModesOnce(signallingOnly: bool, mode: bool)
    ensures Count(Modes(signallingOnly), mode) == if signallingOnly && !mode then 0 else 1
  {
    assert [true][..0] == [] && [false, true][..1] == [false] && [false][..0] == [];
  }

  // So it is the schedule that decides whether Alice's exit status can be believed.
  lemma ScheduledExit(ttype: seq<string>, sel: Selection, tests: seq<string>, signallingOnly: bool)
    ensures var n := |ForTypes(Doubled(ttype), sel, tests, Modes(signallingOnly))|;
            && n == |Doubled(ttype)| * (HowMany(sel, tests) * |Modes(signallingOnly)|)
            && ((forall es :: AliceIsRight(tests, n, es)) <==> n <= 255)
  {
    ForTypesCount(Doubled(ttype), sel, tests, Modes(signallingOnly));
    AliceExit(tests, |ForTypes(Doubled(ttype), sel, tests, Modes(signallingOnly))|);
  }

  lemma {:induction false} HowManyOfAll(tests: seq<string>)
    ensures HowMany(All, tests) == |tests|
  {
    if tests != [] { HowManyOfAll(tests[..|tests| - 1]); }
  }

  lemma AllTestsCount(tests: seq<string>, ttype: seq<string>)
    requires |tests| == 26
    ensures |ForTypes(Doubled(ttype), All, tests, Modes(false))| == |Doubled(ttype)| * 52
  {
    ForTypesCount(Doubled(ttype), All, tests, Modes(false));
    HowManyOfAll(tests);
    assert HowMany(All, tests) * |Modes(false)| == 52;
  }

  // Her own 26 tests stay below the limit with up to four address types; with -4 given five
  // times there are 260 subtests, and some run leaves 256 of them hanging and reports 0.
  lemma AllTestsScheduled(tests: seq<string>, ttype: seq<string>)
    requires |tests| == 26
    ensures var n := |ForTypes(Doubled(ttype), All, tests, Modes(false))|;
            && n == 52 * |Doubled(ttype)|
            && ((forall es :: AliceIsRight(tests, n, es)) <==> |ttype| <= 4)
  {
    AllTestsCount(tests, ttype);
    AliceExit(tests, |ForTypes(Doubled(ttype), All, tests, Modes(false))|);
  }

  lemma FiveTimesIPv4(tests: seq<string>) returns (es: seq<Event>)
    requires |tests| == 26
    ensures var n := |ForTypes(Doubled(["IP4", "IP4", "IP4", "IP4", "IP4"]), All, tests, Modes(false))|;
            var c := Run(Alice, tests, Started(Alice, n), es);
            n == 260 && c.stopped && |c.running| == 256 && ExitStatus(c.rval) == 0
  {
    var ttype := ["IP4", "IP4", "IP4", "IP4", "IP4"];
    AllTestsScheduled(tests, ttype);
    es := AliceWraps(tests, 260);
  }

  // ---------------------------------------------------------------- the same, as objects

  // the innermost loop: one subtest per signalling mode
  method ScheduleModes(atype: string, test: string, modes: seq<bool>, atests0: seq<Config>)
    returns (atests: seq<Config>)
    ensures atests == atests0 + ForModes(atype, test, modes)
  {
    atests := atests0;
    for k := 0 to |modes|
      invariant atests == atests0 + ForModes(atype, test, modes[..k])
    {
      assert modes[..k + 1][..k] == modes[..k];
      atests := atests + [Config(atype, test, modes[k])];
    }
    assert modes[..|modes|] == modes;
  }

  method ScheduleTests(atype: string, sel: Selection, tests: seq<string>, modes: seq<bool>, atests0: seq<Config>)
    returns (atests: seq<Config>)
    ensures atests == atests0 + ForTests(atype, sel, tests, modes)
  {
    atests := atests0;
    for j := 0 to |tests|
      invariant atests == atests0 + ForTests(atype, sel, tests[..j], modes)
    {
      assert tests[..j + 1][..j] == tests[..j];
      if !Selected(sel, tests[j]) { continue; }
      atests := ScheduleModes(atype, tests[j], modes, atests);
    }
    assert tests[..|tests|] == tests;
  }

  // a_test.__init__: the three nested loops that build the schedule
  method Schedule(ttype0: seq<string>, sel: Selection, tests: seq<string>, signallingOnly: bool)
    returns (atests: seq<Config>)
    ensures atests == ForTypes(Doubled(ttype0), sel, tests, Modes(signallingOnly))
    ensures |atests| == |Doubled(ttype0)| * (HowMany(sel, tests) * |Modes(signallingOnly)|)
    ensures forall c :: Count(atests, c) == TimesScheduled(ttype0, sel, tests, signallingOnly, c)
  {
    var ttype := ttype0;
    if |ttype| == 1 { ttype := ttype + ttype; }
    var modes := if signallingOnly then [true] else [false, true];
    atests := [];
    for i := 0 to |ttype|
      invariant atests == ForTypes(ttype[..i], sel, tests, modes)
    {
      assert ttype[..i + 1][..i] == ttype[..i];
      atests := ScheduleTests(ttype[i], sel, tests, modes, atests);
    }
    assert ttype[..|ttype|] == ttype;
    ForTypesCount(ttype, sel, tests, modes);
    forall c ensures Count(atests, c) == TimesScheduled(ttype0, sel, tests, signallingOnly, c) {
      ScheduledOften(ttype0, sel, tests, signallingOnly, c);
    }
  }

  class TestCore {
    const side: Side
    const tests: seq<string>
    var rval: int
    var subtestsRunning: seq<Subtest>
    var stopped: bool
    var made: nat
    ghost var outcomes: seq<int>

    constructor (side: Side, tests: seq<string>, scheduled: nat)
      ensures this.side == side && this.tests == tests
      ensures State() == Started(side, if side == Alice then scheduled else 0) && Numbered()
    {
      this.side, this.tests, stopped, outcomes := side, tests, false, [];
      rval, subtestsRunning, made := 1, [], 0;
      new;
      if side == Alice {
        // one running subtest for each scheduled one
        for i := 0 to scheduled
          invariant made == i && subtestsRunning == seq(i, j => j)
          invariant outcomes == [] && !stopped
        {
          subtestsRunning := subtestsRunning + [made];
          made := made + 1;
        }
        rval := |subtestsRunning|;
      }
    }

    ghost function State(): Core
      reads this
    {
      Core(rval, subtestsRunning, stopped, made, outcomes)
    }

    // Objects made so far; a new one is none of those already running.
    ghost predicate Numbered()
      reads this
    {
      forall x | x in subtestsRunning :: x < made
    }

    // subtests_running.remove(x), for a member
    method RemoveRunning(x: Subtest)
      requires x in subtestsRunning
      modifies this`subtestsRunning
      ensures subtestsRunning == Remove(old(subtestsRunning), x)
    {
      var i := 0;
      while subtestsRunning[i] != x
        invariant 0 <= i < |subtestsRunning| && x in subtestsRunning[i..]
        invariant forall k | 0 <= k < i :: subtestsRunning[k] != x
        decreases |subtestsRunning| - i
      {
        i := i + 1;
      }
      RemoveAt(subtestsRunning, i);
      subtestsRunning := subtestsRunning[..i] + subtestsRunning[i + 1..];
    }

    method SubtestDoneCallback(x: Subtest, r: int) returns (raised: bool)
      requires !stopped && Numbered()
      modifies this
      ensures Numbered()
      ensures State() == Step(side, tests, old(State()), Done(x, r))
      ensures raised <==> x !in old(subtestsRunning)
    {
      if x !in subtestsRunning { return true; }
      RemoveMembers(subtestsRunning, x);
      RemoveRunning(x);
      outcomes := outcomes + [r];
      if r == 0 { rval := rval - 1; }
      if |subtestsRunning| == 0 && side == Alice { stopped := true; }
      return false;
    }

    method TimeoutCallback()
      requires !stopped
      modifies this`rval, this`stopped
      ensures State() == Step(side, tests, old(State()), Timeout)
    {
      if side == Bob && |subtestsRunning| == 0 && rval == 1 { rval := 0; }
      stopped := true;
    }

    method Handle(e: Event)
      requires !stopped && Numbered()
      modifies this
      ensures Numbered() && State() == Step(side, tests, old(State()), e)
    {
      match e
      case Done(x, r) => var _ := SubtestDoneCallback(x, r);
      case Timeout => TimeoutCallback();
      case Receive(q) =>
        // Alice answers every request with 501
        if side == Bob { var _ := RecvRequestCallback(q); }
    }

    // b_test.recvRequest
    method RecvRequestCallback(q: Request) returns (r: Response)
      requires !stopped && side == Bob && Numbered()
      modifies this
      ensures Numbered()
      ensures State() == Step(side, tests, old(State()), Receive(q))
      ensures r == if q.inDialog then NoDialog481
                   else if !q.isInvite then NotImplemented501
                   else if q.cld !in tests then NotFound404
                   else match q.answer
                        case Accepts => Answered
                        case RaisesAuthRequired => Unauthorized401
                        case RaisesAuthFailed => AuthFailed403
                        case RaisesValidationFailure => Raised
    {
      if q.inDialog { return NoDialog481; }
      if q.isInvite {
        var i := 0;
        while i < |tests| && tests[i] != q.cld
          invariant 0 <= i <= |tests| && q.cld !in tests[..i]
        {
          i := i + 1;
        }
        if i == |tests| {
          assert tests[..i] == tests;
          return NotFound404;
        }
        var subtest := made;
        made := made + 1;
        subtestsRunning := subtestsRunning + [subtest];
        rval := rval + 1;
        match q.answer
        case Accepts => return Answered;
        case RaisesAuthFailed => return AuthFailed403;
        case RaisesValidationFailure => return Raised;
        case RaisesAuthRequired =>
          RemoveLast(old(subtestsRunning), subtest);
          RemoveRunning(subtest);
          rval := rval - 1;
          return Unauthorized401;
      }
      return NotImplemented501;
    }
  }

  // main_func: the events until the loop stops, then sys.exit(rval)
  method RunProgram(side: Side, tests: seq<string>, scheduled: nat, es: seq<Event>)
    returns (stopped: bool, status: int)
    ensures var c := Run(side, tests, Started(side, if side == Alice then scheduled else 0), es);
            && (stopped <==> Timeout in es || (side == Alice && scheduled > 0 && c.running == []))
            && (stopped ==>
                  && (status == 0 <==> |c.running| + Failures(c.outcomes) == 0
                                       || (Base(side) + |c.running| + Failures(c.outcomes)) % 256 == 0)
                  && (side == Alice && scheduled <= 255 ==> (status == 0 <==> AllReportZero(scheduled, es)))
                  && (side == Bob && Kept(tests, es) <= 254 ==> (status == 0 <==> AllKeptReportZero(tests, 0, es))))
  {
    var core := new TestCore(side, tests, scheduled);
    ghost var start := core.State();
    var k := 0;
    while k < |es| && !core.stopped
      invariant 0 <= k <= |es| && core.Numbered() && core.side == side && core.tests == tests
      invariant core.State() == Run(side, tests, start, es[..k])
    {
      RunConcat(side, tests, start, es[..k], [es[k]]);
      assert es[..k + 1] == es[..k] + [es[k]];
      assert Run(side, tests, core.State(), [es[k]]) == Step(side, tests, core.State(), es[k]);
      core.Handle(es[k]);
      k := k + 1;
    }
    RunConcat(side, tests, start, es[..k], es[k..]);
    assert es == es[..k] + es[k..];
    StopsExactly(side, tests, start, es);
    if core.stopped {
      StoppedStays(side, tests, core.State(), es[k..]);
      if side == Bob && Kept(tests, es) <= 254 { BobStatus(tests, es); }
      StatusZeroExactly(side, tests, if side == Alice then scheduled else 0, es);
      if side == Alice && scheduled <= 255 { AliceStatus(tests, scheduled, es); }
    }
    return core.stopped, ExitStatus(core.rval);
  }

  lemma {:induction false} RemoveAt(xs: seq<Subtest>, i: nat)
    requires i < |xs| && forall k | 0 <= k < i :: xs[k] != xs[i]
    ensures Remove(xs, xs[i]) == xs[..i] + xs[i + 1..]
  {
    if i > 0 {
      assert xs[1..][i - 1] == xs[i];
      RemoveAt(xs[1..], i - 1);
      assert xs[..i] + xs[i + 1..] == [xs[0]] + (xs[1..][..i - 1] + xs[1..][i..]);
    }
  }

  lemma {:induction false} RemoveLast(xs: seq<Subtest>, x: Subtest)
    requires x !in xs
    ensures Remove(xs + [x], x) == xs
  {
    if xs != [] {
      assert (xs + [x])[1..] == xs[1..] + [x];
      RemoveLast(xs[1..], x);
    }
  }
}
