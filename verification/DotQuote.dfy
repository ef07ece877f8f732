// quote: the escaper for double-quoted strings in the dot file, as three replacements.
module DotQuote {
  import opened Wrappers

  const BACKSLASH := '\\'
  const QUOTE := '\"'
  const NEWLINE := '\n'

  // s.replace(c, with) for a one-character c
  function Replace(s: string, c: char, with: string): string {
    if s == "" then "" else (if s[0] == c then with else [s[0]]) + Replace(s[1..], c, with)
  }

  function Quote(s: string): string {
    Replace(Replace(Replace(s, BACKSLASH, "\\\\"), QUOTE, "\\\""), NEWLINE, "\\n")
  }

  function EscapeChar(c: char): string {
    if c == BACKSLASH then "\\\\"
    else if c == QUOTE then "\\\""
    else if c == NEWLINE then "\\n"
    else [c]
  }

  // One pass, character by character.
  function Escape(s: string): string {
    if s == "" then "" else EscapeChar(s[0]) + Escape(s[1..])
  }

  // One pass back.  None: a backslash that starts none of the three escapes, a quote that is
  // not escaped, or a raw newline.
  function Unescape(s: string): Option<string>
    decreases |s|
  {
    if s == "" then Some("")
    else if s[0] == BACKSLASH then
      if |s| < 2 then None
      else
        var c := if s[1] == 'n' then NEWLINE else s[1];
        if s[1] !in {BACKSLASH, QUOTE, 'n'} then None
        else match Unescape(s[2..])
          case None => None
          case Some(t) => Some([c] + t)
    else if s[0] in {QUOTE, NEWLINE} then None
    else match Unescape(s[1..])
      case None => None
      case Some(t) => Some([s[0]] + t)
  }

  lemma {:induction false} ReplaceConcat(s: string, t: string, c: char, with: string)
    ensures Replace(s + t, c, with) == Replace(s, c, with) + Replace(t, c, with)
  {
    if s == "" {
      assert s + t == t;
    } else {
      assert (s + t)[1..] == s[1..] + t;
      ReplaceConcat(s[1..], t, c, with);
    }
  }

  lemma ReplaceOne(x: char, c: char, with: string)
    ensures Replace([x], c, with) == if x == c then with else [x]
  {
    assert [x][1..] == "";
  }

  lemma ReplaceTwo(x: char, y: char, c: char, with: string)
    requires x != c && y != c
    ensures Replace([x, y], c, with) == [x, y]
  {
    ReplaceOne(x, c, with);
    ReplaceOne(y, c, with);
    assert [x, y] == [x] + [y];
    ReplaceConcat([x], [y], c, with);
  }

  // The second and third passes leave what the earlier ones inserted alone.
  lemma QuoteOne(c: char)
    ensures Quote([c]) == EscapeChar(c)
  {
    ReplaceOne(c, BACKSLASH, "\\\\");
    if c == BACKSLASH {
      ReplaceTwo(BACKSLASH, BACKSLASH, QUOTE, "\\\"");
      ReplaceTwo(BACKSLASH, BACKSLASH, NEWLINE, "\\n");
    } else {
      ReplaceOne(c, QUOTE, "\\\"");
      if c == QUOTE {
        ReplaceTwo(BACKSLASH, QUOTE, NEWLINE, "\\n");
      } else {
        ReplaceOne(c, NEWLINE, "\\n");
      }
    }
  }

  lemma QuoteConcat(s: string, t: string)
    ensures Quote(s + t) == Quote(s) + Quote(t)
  {
    ReplaceConcat(s, t, BACKSLASH, "\\\\");
    var s1, t1 := Replace(s, BACKSLASH, "\\\\"), Replace(t, BACKSLASH, "\\\\");
    ReplaceConcat(s1, t1, QUOTE, "\\\"");
    ReplaceConcat(Replace(s1, QUOTE, "\\\""), Replace(t1, QUOTE, "\\\""), NEWLINE, "\\n");
  }

  // Three passes over the string are one pass over its characters.
  lemma {:induction false} QuoteIsEscape(s: string)
    ensures Quote(s) == Escape(s)
  {
    if s != "" {
      assert s == [s[0]] + s[1..];
      QuoteConcat([s[0]], s[1..]);
      QuoteOne(s[0]);
      QuoteIsEscape(s[1..]);
    }
  }

  // Decoding takes off one escaped character.
  lemma UnescapeOne(c: char, q: string)
    ensures Unescape(EscapeChar(c) + q) ==
            match Unescape(q)
            case None => None
            case Some(t) => Some([c] + t)
  {
    var e := EscapeChar(c);
    assert (e + q)[|e|..] == q;
  }

  lemma {:induction false} UnescapeEscape(s: string)
    ensures Unescape(Escape(s)) == Some(s)
  {
    if s != "" {
      UnescapeEscape(s[1..]);
      UnescapeOne(s[0], Escape(s[1..]));
      assert s == [s[0]] + s[1..];
    }
  }

  // Decoding inverts quoting, so quoting is injective.
  lemma QuoteRoundTrip(s: string)
    ensures Unescape(Quote(s)) == Some(s)
  {
    QuoteIsEscape(s);
    UnescapeEscape(s);
  }

  lemma QuoteInjective(s: string, t: string)
    requires Quote(s) == Quote(t)
    ensures s == t
  {
    QuoteRoundTrip(s);
    QuoteRoundTrip(t);
  }

  // What decodes is a quoted string: quote reaches exactly the well-formed dot strings.
  lemma {:induction false} EscapeUnescape(q: string)
    requires Unescape(q).Some?
    ensures Quote(Unescape(q).value) == q
    decreases |q|
  {
    if q != "" {
      var n := if q[0] == BACKSLASH then 2 else 1;
      var c := if q[0] == BACKSLASH then (if q[1] == 'n' then NEWLINE else q[1]) else q[0];
      var t := Unescape(q[n..]).value;
      EscapeUnescape(q[n..]);
      QuoteConcat([c], t);
      QuoteOne(c);
      assert EscapeChar(c) == q[..n];
      assert q == q[..n] + q[n..];
    }
  }

  // The number of backslashes directly before position i.
  function BackslashesBefore(q: string, i: nat): nat
    requires i <= |q|
  {
    if i > 0 && q[i - 1] == BACKSLASH then 1 + BackslashesBefore(q, i - 1) else 0
  }

  lemma {:induction false} BackslashesShift(a: string, b: string, i: nat)
    requires i <= |b| && (a == "" || a[|a| - 1] != BACKSLASH || BackslashesBefore(a, |a|) % 2 == 0)
    ensures BackslashesBefore(a + b, |a| + i) % 2 == BackslashesBefore(b, i) % 2
    decreases i
  {
    if i > 0 {
      if b[i - 1] == BACKSLASH { BackslashesShift(a, b, i - 1); }
    } else {
      BackslashesPrefix(a, b, |a|);
    }
  }

  lemma {:induction false} BackslashesPrefix(a: string, b: string, i: nat)
    requires i <= |a|
    ensures BackslashesBefore(a + b, i) == BackslashesBefore(a, i)
    decreases i
  {
    if i > 0 && a[i - 1] == BACKSLASH { BackslashesPrefix(a, b, i - 1); }
  }

  // A quoted string fits on one line, and every double quote in it is escaped: an odd number
  // of backslashes stands before it.
  lemma {:induction false} QuoteIsSafe(s: string)
    ensures NEWLINE !in Quote(s)
    ensures forall i | 0 <= i < |Quote(s)| && Quote(s)[i] == QUOTE :: BackslashesBefore(Quote(s), i) % 2 == 1
    decreases |s|
  {
    if s != "" {
      var a, b := Quote([s[0]]), Quote(s[1..]);
      assert s == [s[0]] + s[1..];
      QuoteConcat([s[0]], s[1..]);
      QuoteOne(s[0]);
      QuoteIsSafe(s[1..]);
      forall i | 0 <= i < |a + b| && (a + b)[i] == QUOTE
        ensures BackslashesBefore(a + b, i) % 2 == 1
      {
        EscapedQuote(s[0], b, i);
      }
    }
  }

  // One escaped character in front of an escaped string.
  lemma EscapedQuote(c: char, b: string, i: nat)
    requires forall j | 0 <= j < |b| && b[j] == QUOTE :: BackslashesBefore(b, j) % 2 == 1
    requires i < |EscapeChar(c) + b| && (EscapeChar(c) + b)[i] == QUOTE
    ensures BackslashesBefore(EscapeChar(c) + b, i) % 2 == 1
  {
    var a := EscapeChar(c);
    if i < |a| {
      BackslashesPrefix(a, b, i);
      assert BackslashesBefore(a, 1) == 1;
    } else {
      EscapedEnd(c);
      BackslashesShift(a, b, i - |a|);
    }
  }

  lemma EscapedEnd(c: char)
    ensures var a := EscapeChar(c); a[|a| - 1] != BACKSLASH || BackslashesBefore(a, |a|) % 2 == 0
  {
    var a := EscapeChar(c);
    if c == BACKSLASH {
      assert BackslashesBefore(a, 1) == 1;
      assert BackslashesBefore(a, 2) == 2;
    }
  }
}
