// test_config.__init__: take the common options out of the command line, in place, and
// leave the rest for the caller.
module Options {
  import opened Wrappers
  import PortOracle

  datatype Opt = Opt(name: string, arg: string)

  datatype Value =
    | Range(r: PortOracle.PortRange) | Text(s: string) | Number(n: int)
    | Endpoint(host: string, port: int) | Deadline(t: real) | Names(names: seq<string>)

  // Library calls and surroundings; None stands for the ValueError of int() and float(), and
  // clock(i) is what monotonic() returns when the i-th option of the command line is parsed.
  datatype Lib = Lib(strip: string -> string, toInt: string -> Option<int>, toFloat: string -> Option<real>,
                     clock: nat -> real, myAddress: string)

  // Explicitly given settings, by the option that sets them.
  type Settings = map<string, Value>

  // What _parse_common_opt makes of one option.
  datatype Parsed = NotCommon | Raises | Sets(v: Value)

  function IndexOf(s: string, c: char): nat {
    if s == "" || s[0] == c then 0 else 1 + IndexOf(s[1..], c)
  }

  // s.split(c, 1), for a string that contains c
  function SplitFirst(s: string, c: char): Option<(string, string)> {
    var i := IndexOf(s, c);
    if i < |s| then Some((s[..i], s[i + 1..])) else None
  }

  // s.rsplit(c, 1), for a string that contains c
  function SplitLast(s: string, c: char): Option<(string, string)> {
    if s == "" then None
    else
      var n := |s| - 1;
      if s[n] == c then Some((s[..n], ""))
      else match SplitLast(s[..n], c)
        case None => None
        case Some(p) => Some((p.0, p.1 + [s[n]]))
  }

  // s.split(c)
  function SplitAll(s: string, c: char): seq<string>
    decreases |s|
  {
    match SplitFirst(s, c)
    case None => [s]
    case Some(p) =>
      assert |p.1| < |s|;
      [p.0] + SplitAll(p.1, c)
  }

  function ParseRange(lib: Lib, s: string): Parsed {
    match SplitFirst(s, '-')
    case None => Raises
    case Some(p) =>
      match (lib.toInt(p.0), lib.toInt(p.1))
      case (Some(lo), Some(hi)) =>
        var r := PortOracle.PortRange(lo, hi);
        if PortOracle.ValidRange(r) then Sets(Range(r)) else Raises
      case _ => Raises
  }

  function ParseEndpoint(lib: Lib, parts: Option<(string, string)>): Parsed {
    match parts
    case None => Raises
    case Some(p) =>
      match lib.toInt(p.1)
      case None => Raises
      case Some(port) => Sets(Endpoint(p.0, port))
  }

  function ParseNumber(lib: Lib, a: string): Parsed {
    match lib.toInt(a)
    case None => Raises
    case Some(n) => Sets(Number(n))
  }

  function Parse(lib: Lib, at: nat, o: Opt): Parsed {
    if o.name == "-p" then ParseRange(lib, lib.strip(o.arg))
    else if o.name == "-l" then
      Sets(Text(if lib.strip(o.arg) == "*" then lib.myAddress else lib.strip(o.arg)))
    else if o.name == "-P" || o.name == "-T" then ParseNumber(lib, o.arg)
    else if o.name == "-n" then ParseEndpoint(lib, SplitFirst(o.arg, ':'))
    else if o.name == "-N" then ParseEndpoint(lib, SplitLast(o.arg, ':'))
    else if o.name == "-w" then
      match lib.toFloat(o.arg)
      case None => Raises
      case Some(t) => Sets(Deadline(lib.clock(at) + t))
    else if o.name == "-m" then Sets(Names(SplitAll(o.arg, ',')))
    else NotCommon
  }

  predicate Common(name: string) {
    name in {"-p", "-l", "-P", "-T", "-n", "-N", "-w", "-m"}
  }

  // Which options are common, and what is set by the four with one value: the address to
  // listen on, the port, the timeout, and a moment as far ahead of the clock as was asked for.
  lemma OneValueExactly(lib: Lib, at: nat, o: Opt)
    ensures Parse(lib, at, o) == NotCommon <==> o.name !in {"-p", "-l", "-P", "-T", "-n", "-N", "-w", "-m"}
    ensures o.name == "-l" ==>
              Parse(lib, at, o) == Sets(Text(if lib.strip(o.arg) == "*" then lib.myAddress else lib.strip(o.arg)))
    ensures o.name == "-P" || o.name == "-T" ==>
              match lib.toInt(o.arg)
              case None => Parse(lib, at, o) == Raises
              case Some(n) => Parse(lib, at, o) == Sets(Number(n))
    ensures o.name == "-w" ==>
              match lib.toFloat(o.arg)
              case None => Parse(lib, at, o) == Raises
              case Some(t) => Parse(lib, at, o).Sets? && Parse(lib, at, o).v.Deadline?
                              && Parse(lib, at, o).v.t - lib.clock(at) == t
  {
  }

  // ------------------------------------------------------------------ the specification

  // What is left: the options that are not common, in their order.
  function Uncommon(opts: seq<Opt>): seq<Opt> {
    if opts == [] then []
    else Uncommon(opts[..|opts| - 1]) + if Common(opts[|opts| - 1].name) then [] else [opts[|opts| - 1]]
  }

  function Applied(lib: Lib, cfg: Settings, opts: seq<Opt>): Settings {
    if opts == [] then cfg
    else
      var before := Applied(lib, cfg, opts[..|opts| - 1]);
      match Parse(lib, |opts| - 1, opts[|opts| - 1])
      case Sets(v) => before[opts[|opts| - 1].name := v]
      case _ => before
  }

  // The first option whose argument is malformed, or the end.
  ghost predicate FirstMalformed(lib: Lib, opts: seq<Opt>, j: nat) {
    && j <= |opts|
    && (forall i | 0 <= i < j :: Parse(lib, i, opts[i]) != Raises)
    && (j < |opts| ==> Parse(lib, j, opts[j]) == Raises)
  }

  lemma ParseCommon(lib: Lib, at: nat, o: Opt)
    ensures Parse(lib, at, o) == NotCommon <==> !Common(o.name)
  {
  }

  lemma AppliedSnoc(lib: Lib, cfg: Settings, opts: seq<Opt>, j: nat)
    requires j < |opts|
    ensures Applied(lib, cfg, opts[..j + 1]) ==
            var before := Applied(lib, cfg, opts[..j]);
            match Parse(lib, j, opts[j])
            case Sets(v) => before[opts[j].name := v]
            case _ => before
    ensures Uncommon(opts[..j + 1]) == Uncommon(opts[..j]) + if Common(opts[j].name) then [] else [opts[j]]
  {
    assert opts[..j + 1][..j] == opts[..j];
  }

  // A setting no common option names keeps its value, or stays unset.
  lemma {:induction false} UnnamedKept(lib: Lib, cfg: Settings, opts: seq<Opt>, name: string)
    requires forall i | 0 <= i < |opts| && Common(opts[i].name) :: opts[i].name != name
    ensures var r := Applied(lib, cfg, opts);
            (name in r <==> name in cfg) && (name in cfg ==> r[name] == cfg[name])
  {
    if opts != [] {
      UnnamedKept(lib, cfg, opts[..|opts| - 1], name);
      ParseCommon(lib, |opts| - 1, opts[|opts| - 1]);
    }
  }

  // Every setting has the value of the last option that names it.
  lemma {:induction false} LastOccurrenceWins(lib: Lib, cfg: Settings, opts: seq<Opt>, i: nat)
    requires i < |opts| && Common(opts[i].name) && Parse(lib, i, opts[i]) != Raises
    requires forall k | i < k < |opts| :: opts[k].name != opts[i].name
    ensures var r := Applied(lib, cfg, opts);
            opts[i].name in r && Parse(lib, i, opts[i]) == Sets(r[opts[i].name])
    decreases |opts|
  {
    var n := |opts| - 1;
    ParseCommon(lib, i, opts[i]);
    if i < n {
      assert opts[..n][i] == opts[i];
      LastOccurrenceWins(lib, cfg, opts[..n], i);
      assert opts[n].name != opts[i].name;
    }
  }

  lemma {:induction false} UncommonCount(opts: seq<Opt>, o: Opt)
    ensures multiset(Uncommon(opts))[o] == if Common(o.name) then 0 else multiset(opts)[o]
  {
    if opts != [] {
      var n := |opts| - 1;
      UncommonCount(opts[..n], o);
      assert opts == opts[..n] + [opts[n]];
    }
  }

  // Uncommon keeps exactly the occurrences that are not common.
  lemma UncommonExactly(opts: seq<Opt>, o: Opt)
    ensures multiset(Uncommon(opts))[o] ==
            if o.name in {"-p", "-l", "-P", "-T", "-n", "-N", "-w", "-m"} then 0 else multiset(opts)[o]
  {
    UncommonCount(opts, o);
  }

  lemma {:induction false} IndexOfPast(h: string, c: char, t: string)
    requires c !in h
    ensures IndexOf(h + [c] + t, c) == |h|
  {
    if h != "" {
      assert (h + [c] + t)[1..] == h[1..] + [c] + t;
      IndexOfPast(h[1..], c, t);
    }
  }

  lemma {:induction false} SplitLastAt(h: string, c: char, t: string)
    requires c !in t
    ensures SplitLast(h + [c] + t, c) == Some((h, t))
    decreases |t|
  {
    var s := h + [c] + t;
    var n := |s| - 1;
    if t == "" {
      assert s[..n] == h;
    } else {
      var m := |t| - 1;
      assert s[..n] == h + [c] + t[..m];
      SplitLastAt(h, c, t[..m]);
      assert t[..m] + [t[m]] == t;
    }
  }

  lemma SplitsAtFirst(lib: Lib, at: nat, host: string, digits: string, port: int)
    requires lib.toInt(digits) == Some(port) && ':' !in digits
    ensures Parse(lib, at, Opt("-n", host + [':'] + digits)) == Sets(Endpoint(host, port)) <==> ':' !in host
  {
    var s := host + [':'] + digits;
    if ':' !in host {
      IndexOfPast(host, ':', digits);
      assert s[..|host|] == host && s[|host| + 1..] == digits;
    } else {
      IndexOfWithin(host, [':'] + digits, ':');
      assert s == host + ([':'] + digits);
    }
  }

  // -n reads back host:port exactly for hosts without a colon; -N also for IPv6 hosts, since
  // it splits at the last colon.
  lemma EndpointsReadBack(lib: Lib, at: nat, host: string, digits: string, port: int)
    requires lib.toInt(digits) == Some(port) && ':' !in digits
    ensures Parse(lib, at, Opt("-n", host + [':'] + digits)) == Sets(Endpoint(host, port)) <==> ':' !in host
    ensures Parse(lib, at, Opt("-N", host + [':'] + digits)) == Sets(Endpoint(host, port))
  {
    SplitsAtFirst(lib, at, host, digits, port);
    SplitLastAt(host, ':', digits);
  }

  lemma {:induction false} IndexOfWithin(s: string, t: string, c: char)
    requires c in s
    ensures IndexOf(s + t, c) == IndexOf(s, c) < |s|
  {
    if s[0] != c {
      assert (s + t)[1..] == s[1..] + t;
      IndexOfWithin(s[1..], t, c);
    }
  }

  lemma {:induction false} IndexOfMeaning(s: string, c: char)
    ensures IndexOf(s, c) <= |s| && c !in s[..IndexOf(s, c)]
    ensures IndexOf(s, c) < |s| ==> s[IndexOf(s, c)] == c
  {
    if s != "" && s[0] != c {
      IndexOfMeaning(s[1..], c);
      var i := IndexOf(s[1..], c);
      assert s[..1 + i] == [s[0]] + s[1..][..i];
    }
  }

  // -p is accepted exactly when the stripped argument is two numbers with a dash between
  // them, the first dash there is, and the range they make is a valid one.
  lemma RangeExactly(lib: Lib, at: nat, arg: string, r: PortOracle.PortRange)
    ensures Parse(lib, at, Opt("-p", arg)) == Sets(Range(r)) <==>
            exists lo, hi ::
              && lib.strip(arg) == lo + ['-'] + hi && '-' !in lo
              && lib.toInt(lo) == Some(r.minp) && lib.toInt(hi) == Some(r.maxp)
              && 1024 <= r.minp && r.maxp <= 65535
  {
    var s := lib.strip(arg);
    var i := IndexOf(s, '-');
    IndexOfMeaning(s, '-');
    if i < |s| { assert s == s[..i] + ['-'] + s[i + 1..]; }
    forall lo, hi | s == lo + ['-'] + hi && '-' !in lo ensures SplitFirst(s, '-') == Some((lo, hi)) {
      IndexOfPast(lo, '-', hi);
      assert s[..|lo|] == lo && s[|lo| + 1..] == hi;
    }
  }

  function JoinWith(names: seq<string>, c: char): string {
    if names == [] then "" else if |names| == 1 then names[0] else names[0] + [c] + JoinWith(names[1..], c)
  }

  lemma {:induction false} SplitAllJoins(s: string, c: char)
    ensures var names := SplitAll(s, c);
            names != [] && JoinWith(names, c) == s && forall i | 0 <= i < |names| :: c !in names[i]
    decreases |s|
  {
    var i := IndexOf(s, c);
    IndexOfMeaning(s, c);
    if i < |s| {
      var rest := s[i + 1..];
      SplitAllJoins(rest, c);
      assert SplitAll(s, c)[1..] == SplitAll(rest, c);
      assert s == s[..i] + [c] + rest;
    } else {
      assert s[..i] == s;
    }
  }

  // The names -m sets have no comma in them and give the argument back when joined by commas.
  lemma NamesReadBack(lib: Lib, at: nat, arg: string)
    ensures var p := Parse(lib, at, Opt("-m", arg));
            && p.Sets? && p.v.Names? && p.v.names != []
            && JoinWith(p.v.names, ',') == arg
            && forall i | 0 <= i < |p.v.names| :: ',' !in p.v.names[i]
  {
    SplitAllJoins(arg, ',');
  }

  // The loop before it looks at option j of the original list: everything earlier is dealt
  // with, and i is where the rest begins.
  ghost predicate Midway(lib: Lib, cfg0: Settings, all: seq<Opt>, j: nat, cfg: Settings, opts: seq<Opt>, i: nat) {
    && j <= |all|
    && opts == Uncommon(all[..j]) + all[j..] && i == |Uncommon(all[..j])|
    && cfg == Applied(lib, cfg0, all[..j])
    && (forall k | 0 <= k < j :: Parse(lib, k, all[k]) != Raises)
  }

  lemma AfterSplit<T>(s: seq<T>, t: seq<T>)
    requires t != []
    ensures (s + t)[..|s|] == s && (s + t)[|s| + 1..] == t[1..]
  {
  }

  lemma MidwayDeletes(lib: Lib, cfg0: Settings, all: seq<Opt>, j: nat, cfg: Settings, opts: seq<Opt>, i: nat)
    requires Midway(lib, cfg0, all, j, cfg, opts, i) && i < |opts| && Parse(lib, j, opts[i]).Sets?
    ensures Midway(lib, cfg0, all, j + 1, cfg[opts[i].name := Parse(lib, j, opts[i]).v], opts[..i] + opts[i + 1..], i)
  {
    assert opts[i] == all[j];
    ParseCommon(lib, j, all[j]);
    AppliedSnoc(lib, cfg0, all, j);
    AfterSplit(Uncommon(all[..j]), all[j..]);
    assert all[j..][1..] == all[j + 1..];
    assert Uncommon(all[..j]) + [] == Uncommon(all[..j]);
  }

  lemma MidwayAdvances(lib: Lib, cfg0: Settings, all: seq<Opt>, j: nat, cfg: Settings, opts: seq<Opt>, i: nat)
    requires Midway(lib, cfg0, all, j, cfg, opts, i) && i < |opts| && Parse(lib, j, opts[i]).NotCommon?
    ensures Midway(lib, cfg0, all, j + 1, cfg, opts, i + 1)
  {
    assert opts[i] == all[j];
    ParseCommon(lib, j, all[j]);
    AppliedSnoc(lib, cfg0, all, j);
    assert all[j..] == [all[j]] + all[j + 1..];
  }

  lemma MidwayStops(lib: Lib, cfg0: Settings, all: seq<Opt>, j: nat, cfg: Settings, opts: seq<Opt>, i: nat)
    requires Midway(lib, cfg0, all, j, cfg, opts, i) && (i < |opts| ==> Parse(lib, j, opts[i]) == Raises)
    ensures FirstMalformed(lib, all, j) && (i < |opts| <==> j < |all|)
    ensures opts == Uncommon(all[..j]) + all[j..] && cfg == Applied(lib, cfg0, all[..j])
  {
  }

  // ------------------------------------------------------------------------ the program

  // the list object the caller goes on using
  class OptList {
    var opts: seq<Opt>

    constructor (opts: seq<Opt>)
      ensures this.opts == opts
    {
      this.opts := opts;
    }
  }

  class TestConfig {
    var settings: Settings

    constructor ()
      ensures settings == map[]
    {
      settings := map[];
    }

    // _parse_common_opt: Sets stands for the result True, NotCommon for False
    method ParseCommonOpt(lib: Lib, at: nat, o: Opt) returns (p: Parsed)
      modifies this
      ensures p == Parse(lib, at, o)
      ensures settings == if p.Sets? then old(settings)[o.name := p.v] else old(settings)
    {
      var v;
      if o.name == "-p" {
        var parts := SplitFirst(lib.strip(o.arg), '-');
        if parts.None? { return Raises; }
        var minp, maxp := lib.toInt(parts.value.0), lib.toInt(parts.value.1);
        if minp.None? || maxp.None? { return Raises; }
        if minp.value < PortOracle.ABS_MINP || maxp.value > PortOracle.ABS_MAXP { return Raises; }
        v := Range(PortOracle.PortRange(minp.value, maxp.value));
      } else if o.name == "-l" {
        var saddr := lib.strip(o.arg);
        if saddr == "*" { saddr := lib.myAddress; }
        v := Text(saddr);
      } else if o.name == "-P" {
        var port := lib.toInt(o.arg);
        if port.None? { return Raises; }
        v := Number(port.value);
      } else if o.name == "-T" {
        var timeout := lib.toInt(o.arg);
        if timeout.None? { return Raises; }
        v := Number(timeout.value);
      } else if o.name == "-n" {
        var parts := SplitFirst(o.arg, ':');
        if parts.None? { return Raises; }
        var port := lib.toInt(parts.value.1);
        if port.None? { return Raises; }
        v := Endpoint(parts.value.0, port.value);
      } else if o.name == "-N" {
        var parts := SplitLast(o.arg, ':');
        if parts.None? { return Raises; }
        var port := lib.toInt(parts.value.1);
        if port.None? { return Raises; }
        v := Endpoint(parts.value.0, port.value);
      } else if o.name == "-w" {
        var wait := lib.toFloat(o.arg);
        if wait.None? { return Raises; }
        v := Deadline(lib.clock(at) + wait.value);
      } else if o.name == "-m" {
        v := Names(SplitAll(o.arg, ','));
      } else {
        return NotCommon;
      }
      settings := settings[o.name := v];
      return Sets(v);
    }

    // One turn of the loop: a common option is deleted from the list, another one is passed.
    method TakeTurn(lib: Lib, list: OptList, i0: nat, at: nat, ghost cfg0: Settings, ghost all: seq<Opt>)
      returns (raised: bool, i: nat)
      requires i0 < |list.opts| && Midway(lib, cfg0, all, at, settings, list.opts, i0)
      modifies this, list
      ensures raised ==> settings == old(settings) && list.opts == old(list.opts) && i == i0
      ensures raised <==> at < |all| && Parse(lib, at, all[at]) == Raises
      ensures !raised ==> Midway(lib, cfg0, all, at + 1, settings, list.opts, i)
    {
      ghost var cfg, opts := settings, list.opts;
      i := i0;
      var p := ParseCommonOpt(lib, at, list.opts[i]);
      raised := p.Raises?;
      match p
      case Raises =>
      case Sets(_) =>
        MidwayDeletes(lib, cfg0, all, at, cfg, opts, i);
        list.opts := list.opts[..i] + list.opts[i + 1..];
      case NotCommon =>
        MidwayAdvances(lib, cfg0, all, at, cfg, opts, i);
        i := i + 1;
    }

    // The delete-or-advance loop.  Without a malformed argument it takes out exactly the
    // common options; with one it stops there, that option and the rest still in the list.
    method TakeCommonOpts(lib: Lib, list: OptList) returns (raised: bool, j: nat)
      modifies this, list
      ensures FirstMalformed(lib, old(list.opts), j) && (raised <==> j < |old(list.opts)|)
      ensures list.opts == Uncommon(old(list.opts)[..j]) + old(list.opts)[j..]
      ensures settings == Applied(lib, old(settings), old(list.opts)[..j])
    {
      var i: nat := 0;
      ghost var all := list.opts;
      j := 0;
      assert all == [] + all;
      while i < |list.opts|
        invariant Midway(lib, old(settings), all, j, settings, list.opts, i)
        decreases |all| - j
      {
        raised, i := TakeTurn(lib, list, i, j, old(settings), all);
        if raised {
          MidwayStops(lib, old(settings), all, j, settings, list.opts, i);
          return true, j;
        }
        j := j + 1;
      }
      MidwayStops(lib, old(settings), all, j, settings, list.opts, i);
      return false, j;
    }
  }
}
