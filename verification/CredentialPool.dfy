// The UAS scenario hands out its lists of digest algorithms in turn: every AUTH_CREDS object
// takes the last entry of a shared list and puts it back in front.
module CredentialPool {
  import opened Wrappers

  // allargs, with entries of any kind
  class Pool<T(==)> {
    var allargs: seq<T>

    constructor (entries: seq<T>)
      ensures allargs == entries
    {
      allargs := entries;
    }

    // AUTH_CREDS.__init__; pop() raises on an empty list, which this one never is
    method Take() returns (enalgs: T)
      requires allargs != []
      modifies this
      ensures enalgs == old(allargs)[|old(allargs)| - 1]
      ensures allargs == Turned(old(allargs), 1) == [enalgs] + old(allargs)[..|old(allargs)| - 1]
    {
      var n := |allargs| - 1;
      enalgs := allargs[n];
      allargs := allargs[..n];
      allargs := [enalgs] + allargs;
    }

    // Any number of credentials in a row: the i-th is entry n-1-(i mod n) of the list as it was.
    method TakeMany(count: nat) returns (taken: seq<T>)
      requires allargs != []
      modifies this
      ensures |taken| == count
      ensures InTurn(old(allargs), taken)
      ensures allargs == Turned(old(allargs), count % |old(allargs)|)
      ensures Distinct(old(allargs)) ==>
                forall x, y | x in old(allargs) && y in old(allargs) :: Count(taken, x) <= Count(taken, y) + 1
    {
      taken := [];
      ghost var start := allargs;
      TurnedNone(start);
      for k := 0 to count
        invariant |taken| == k && InTurn(start, taken)
        invariant allargs == Turned(start, k % |start|)
      {
        TurnedOn(start, k);
        var enalgs := Take();
        InTurnSnoc(start, taken, enalgs);
        taken := taken + [enalgs];
      }
      if Distinct(start) { HandedOutFairly(start, taken); }
    }
  }

  // The last k entries moved to the front.
  function Turned<T>(xs: seq<T>, k: nat): seq<T>
    requires k <= |xs|
  {
    xs[|xs| - k..] + xs[..|xs| - k]
  }

  function Position(n: nat, k: nat): (i: nat)
    requires n > 0
    ensures i < n
  {
    n - 1 - k % n
  }

  // What is handed out of xs: the i-th is entry n-1-(i mod n).
  ghost predicate InTurn<T>(xs: seq<T>, taken: seq<T>) {
    (taken == [] || xs != []) && forall i | 0 <= i < |taken| :: taken[i] == xs[Position(|xs|, i)]
  }

  lemma InTurnSnoc<T>(xs: seq<T>, taken: seq<T>, x: T)
    requires InTurn(xs, taken) && xs != [] && x == xs[Position(|xs|, |taken|)]
    ensures InTurn(xs, taken + [x])
  {
  }

  lemma TurnedTwice<T>(xs: seq<T>, k: nat)
    requires k < |xs|
    ensures |Turned(xs, k)| == |xs| && Turned(xs, k)[|xs| - 1] == xs[|xs| - 1 - k]
    ensures Turned(Turned(xs, k), 1) == Turned(xs, if k + 1 == |xs| then 0 else k + 1)
  {
  }

  lemma TurnedNone<T>(xs: seq<T>)
    requires xs != []
    ensures Turned(xs, 0 % |xs|) == xs
  {
    assert 0 % |xs| == 0;
  }

  // The (k+1)-th credential takes its entry off a list turned k times.
  lemma TurnedOn<T>(xs: seq<T>, k: nat)
    requires xs != []
    ensures var turned := Turned(xs, k % |xs|);
            && |turned| == |xs| && turned[|xs| - 1] == xs[Position(|xs|, k)]
            && Turned(turned, 1) == Turned(xs, (k + 1) % |xs|)
  {
    ModStep(k, |xs|);
    TurnedTwice(xs, k % |xs|);
  }

  lemma {:induction false} ModStep(k: nat, n: nat)
    requires n > 0
    ensures (k + 1) % n == if k % n + 1 == n then 0 else k % n + 1
    ensures (k + 1) / n == k / n + if k % n + 1 == n then 1 else 0
  {
    var q, r := k / n, k % n;
    if r + 1 == n {
      DivModOf(k + 1, n, q + 1, 0);
    } else {
      DivModOf(k + 1, n, q, r + 1);
    }
  }

  lemma {:induction false} DivModOf(x: nat, n: nat, q: nat, r: nat)
    requires n > 0 && r < n && x == q * n + r
    ensures x / n == q && x % n == r
  {
    assert x == (x / n) * n + x % n;
    Multiple(x / n - q, n);
  }

  lemma Multiple(d: int, n: nat)
    requires n > 0
    ensures (d >= 1 ==> d * n >= n) && (d <= -1 ==> d * n + n <= 0)
  {
  }

  lemma {:induction false} DivClose(x: nat, y: nat, n: nat)
    requires n > 0 && x < y + n
    ensures x / n <= y / n + 1
  {
    assert x == (x / n) * n + x % n && y == (y / n) * n + y % n;
    Multiple(x / n - y / n - 1, n);
    assert (x / n - y / n - 1) * n == (x / n) * n - (y / n) * n - n;
  }

  // How often position i has been handed out after k credentials.
  function Uses(n: nat, i: nat, k: nat): nat
    requires n > 0
  {
    if k == 0 then 0 else Uses(n, i, k - 1) + if Position(n, k - 1) == i then 1 else 0
  }

  lemma {:induction false} UsesExactly(n: nat, i: nat, k: nat)
    requires i < n
    ensures Uses(n, i, k) == (k + i) / n
  {
    if k == 0 {
      DivModOf(i, n, 0, i);
    } else {
      UsesExactly(n, i, k - 1);
      ModStep(k - 1 + i, n);
      ModShift(k - 1, i, n);
    }
  }

  // (k + i) is the last of a block of n exactly when k mod n is n-1-i.
  lemma {:induction false} ModShift(k: nat, i: nat, n: nat)
    requires i < n
    ensures (k + i) % n == n - 1 <==> k % n == n - 1 - i
  {
    var q, r := k / n, k % n;
    assert k == q * n + r;
    if r + i < n {
      DivModOf(k + i, n, q, r + i);
    } else {
      assert (q + 1) * n == q * n + n;
      DivModOf(k + i, n, q + 1, r + i - n);
    }
  }

  // Fair at every moment: no entry is ever used two times more than another.
  lemma RoundRobinFair(n: nat, i: nat, j: nat, k: nat)
    requires i < n && j < n
    ensures Uses(n, i, k) <= Uses(n, j, k) + 1
  {
    UsesExactly(n, i, k);
    UsesExactly(n, j, k);
    DivClose(k + i, k + j, n);
  }

  predicate Distinct<T(==)>(xs: seq<T>) {
    forall i, j | 0 <= i < j < |xs| :: xs[i] != xs[j]
  }

  // In what was handed out, entry i occurs as often as its position came up.
  lemma {:induction false} TakenUses<T>(xs: seq<T>, taken: seq<T>, i: nat)
    requires Distinct(xs) && i < |xs| && InTurn(xs, taken)
    ensures Count(taken, xs[i]) == Uses(|xs|, i, |taken|)
    decreases |taken|
  {
    if taken != [] {
      var n := |taken| - 1;
      TakenUses(xs, taken[..n], i);
      assert taken[n] == xs[i] <==> Position(|xs|, n) == i;
    }
  }

  // However many credentials are handed out, no entry is handed out two times more often
  // than another.
  lemma HandedOutFairly<T>(xs: seq<T>, taken: seq<T>)
    requires Distinct(xs) && InTurn(xs, taken)
    ensures forall x, y | x in xs && y in xs :: Count(taken, x) <= Count(taken, y) + 1
  {
    forall x, y | x in xs && y in xs ensures Count(taken, x) <= Count(taken, y) + 1 {
      var i :| 0 <= i < |xs| && xs[i] == x;
      var j :| 0 <= j < |xs| && xs[j] == y;
      TakenUses(xs, taken, i);
      TakenUses(xs, taken, j);
      RoundRobinFair(|xs|, i, j, |taken|);
    }
  }
}
