/** String operations the daemon takes from Go's `strings` package, with the laws the parser rests on.
    White space is the ASCII set. */
module Text {

  /** The two sets of characters the daemon trims. */
  datatype Cut = Space | Quote {
    predicate Has(c: char) {
      if Space? then c == ' ' || '\t' <= c <= '\r' else c == '"'
    }
  }

  /** The first position of c in s, or -1. */
  function Index(s: string, c: char): (i: int)
    ensures -1 <= i < |s|
  {
    if s == "" then -1
    else if s[0] == c then 0
    else
      var i := Index(s[1..], c);
      if i == -1 then -1 else i + 1
  }

  lemma {:induction false} IndexFirst(s: string, c: char)
    ensures Index(s, c) == -1 <==> c !in s
    ensures Index(s, c) != -1 ==> s[Index(s, c)] == c && c !in s[..Index(s, c)]
  {
    if s != "" && s[0] != c {
      IndexFirst(s[1..], c);
      assert s == [s[0]] + s[1..];
      var i := Index(s[1..], c);
      assert i != -1 ==> s[..i + 1] == [s[0]] + s[1..][..i];
    }
  }

  lemma {:induction false} IndexAt(a: string, c: char, b: string)
    requires c !in a
    ensures Index(a + [c] + b, c) == |a|
  {
    if a != "" {
      IndexAt(a[1..], c, b);
      assert (a + [c] + b)[1..] == a[1..] + [c] + b;
    }
  }

  predicate HasPrefix(s: string, prefix: string) {
    |prefix| <= |s| && s[..|prefix|] == prefix
  }

  predicate HasSuffix(s: string, suffix: string) {
    |suffix| <= |s| && s[|s| - |suffix|..] == suffix
  }

  function TrimLeft(s: string, cut: Cut): (r: string)
    ensures r == "" || !cut.Has(r[0])
    ensures |r| <= |s| && r == s[|s| - |r|..]
  {
    if s != "" && cut.Has(s[0]) then TrimLeft(s[1..], cut) else s
  }

  function TrimRight(s: string, cut: Cut): (r: string)
    ensures r == "" || !cut.Has(r[|r| - 1])
    ensures |r| <= |s| && r == s[..|r|]
  {
    if s != "" && cut.Has(s[|s| - 1]) then TrimRight(s[..|s| - 1], cut) else s
  }

  /** No character at either edge is in the cut set. */
  predicate Trimmed(s: string, cut: Cut) {
    s == "" || (!cut.Has(s[0]) && !cut.Has(s[|s| - 1]))
  }

  function Trim(s: string, cut: Cut): (r: string)
    ensures Trimmed(r, cut)
  {
    TrimRight(TrimLeft(s, cut), cut)
  }

  lemma {:induction false} TrimKeeps(s: string, cut: Cut)
    ensures Trimmed(s, cut) ==> Trim(s, cut) == s
    ensures forall c | c in Trim(s, cut) :: c in s
  {
  }

  function TrimSpace(s: string): string {
    Trim(s, Space)
  }

  function TrimQuotes(s: string): string {
    Trim(s, Quote)
  }

  lemma {:induction false} TrimLeftCons(c: char, s: string, cut: Cut)
    requires cut.Has(c)
    ensures TrimLeft([c] + s, cut) == TrimLeft(s, cut)
  {
    assert ([c] + s)[1..] == s;
  }

  lemma {:induction false} TrimRightSnoc(s: string, c: char, cut: Cut)
    requires cut.Has(c)
    ensures TrimRight(s + [c], cut) == TrimRight(s, cut)
  {
    assert (s + [c])[..|s|] == s;
  }

  lemma {:induction false} TrimLeftBlanks(w: string, s: string, cut: Cut)
    requires forall c | c in w :: cut.Has(c)
    ensures TrimLeft(w + s, cut) == TrimLeft(s, cut)
  {
    if w == "" {
      assert w + s == s;
    } else {
      assert w + s == [w[0]] + (w[1..] + s);
      TrimLeftCons(w[0], w[1..] + s, cut);
      TrimLeftBlanks(w[1..], s, cut);
    }
  }

  lemma {:induction false} TrimRightBlanks(s: string, w: string, cut: Cut)
    requires forall c | c in w :: cut.Has(c)
    ensures TrimRight(s + w, cut) == TrimRight(s, cut)
  {
    if w == "" {
      assert s + w == s;
    } else {
      var init, last := w[..|w| - 1], w[|w| - 1];
      assert s + w == (s + init) + [last];
      TrimRightSnoc(s + init, last, cut);
      TrimRightBlanks(s, init, cut);
    }
  }

  /** Trimming takes off exactly what was put around a trimmed text. */
  lemma {:induction false} TrimAround(w: string, s: string, w': string, cut: Cut)
    requires (forall c | c in w :: cut.Has(c)) && (forall c | c in w' :: cut.Has(c)) && Trimmed(s, cut)
    ensures Trim(w + s + w', cut) == s
  {
    assert w + s + w' == w + (s + w');
    TrimLeftBlanks(w, s + w', cut);
    if s == "" {
      assert s + w' == w' == w' + "";
      TrimLeftBlanks(w', "", cut);
    } else {
      TrimRightBlanks(s, w', cut);
    }
  }

  lemma {:induction false} TrimStops(s: string, cut: Cut)
    ensures s == "" || !cut.Has(s[0]) ==> TrimLeft(s, cut) == s
    ensures s == "" || !cut.Has(s[|s| - 1]) ==> TrimRight(s, cut) == s
  {
  }

  /** A character that is kept stops the trimming from either side. */
  lemma {:induction false} TrimLeftTo(s: string, c: char, rest: string, cut: Cut)
    requires !cut.Has(c)
    ensures TrimLeft(s + [c] + rest, cut) == TrimLeft(s, cut) + [c] + rest
  {
    hide TrimLeft, TrimRight;
    var t := s + [c] + rest;
    if s == "" || !cut.Has(s[0]) {
      TrimStops(s, cut);
      assert t[0] == if s == "" then c else s[0];
      TrimStops(t, cut);
    } else {
      var tail := s[1..];
      assert t == [s[0]] + (tail + [c] + rest) && s == [s[0]] + tail;
      calc {
        TrimLeft(t, cut);
        { TrimLeftCons(s[0], tail + [c] + rest, cut); }
        TrimLeft(tail + [c] + rest, cut);
        { TrimLeftTo(tail, c, rest, cut); }
        TrimLeft(tail, cut) + [c] + rest;
        { TrimLeftCons(s[0], tail, cut); }
        TrimLeft(s, cut) + [c] + rest;
      }
    }
  }

  lemma {:induction false} TrimRightTo(start: string, c: char, s: string, cut: Cut)
    requires !cut.Has(c)
    ensures TrimRight(start + [c] + s, cut) == start + [c] + TrimRight(s, cut)
  {
    hide TrimLeft, TrimRight;
    var t := start + [c] + s;
    if s == "" || !cut.Has(s[|s| - 1]) {
      TrimStops(s, cut);
      assert t[|t| - 1] == if s == "" then c else s[|s| - 1];
      TrimStops(t, cut);
    } else {
      var init, last := s[..|s| - 1], s[|s| - 1];
      assert t == (start + [c] + init) + [last] && s == init + [last];
      calc {
        TrimRight(t, cut);
        { TrimRightSnoc(start + [c] + init, last, cut); }
        TrimRight(start + [c] + init, cut);
        { TrimRightTo(start, c, init, cut); }
        start + [c] + TrimRight(init, cut);
        { TrimRightSnoc(init, last, cut); }
        start + [c] + TrimRight(s, cut);
      }
    }
  }

  lemma {:induction false} TrimBoth(x: string, c: char, y: string, cut: Cut)
    requires !cut.Has(c)
    ensures Trim(x + [c] + y, cut) == TrimLeft(x, cut) + [c] + TrimRight(y, cut)
  {
    hide TrimLeft, TrimRight;
    TrimLeftTo(x, c, y, cut);
    TrimRightTo(TrimLeft(x, cut), c, y, cut);
  }

  /** Trimming one side first makes no difference. */
  lemma {:induction false} TrimLeftFirst(w: string, s: string, w': string, cut: Cut)
    requires (forall c | c in w :: cut.Has(c)) && (forall c | c in w' :: cut.Has(c)) && Trimmed(s, cut)
    ensures Trim(TrimLeft(w + s + w', cut), cut) == s
  {
    hide TrimLeft, TrimRight;
    var t := s + w';
    assert w + s + w' == w + t;
    TrimLeftBlanks(w, t, cut);
    TrimStops(s, cut);
    if s == "" {
      assert t == w' + s;
      TrimLeftBlanks(w', s, cut);
    } else {
      assert t[0] == s[0];
      TrimStops(t, cut);
      TrimRightBlanks(s, w', cut);
    }
  }

  lemma {:induction false} TrimRightFirst(w: string, s: string, w': string, cut: Cut)
    requires (forall c | c in w :: cut.Has(c)) && (forall c | c in w' :: cut.Has(c)) && Trimmed(s, cut)
    ensures Trim(TrimRight(w + s + w', cut), cut) == s
  {
    hide TrimLeft, TrimRight;
    TrimRightBlanks(w + s, w', cut);
    if s == "" {
      assert w + s == "" + w;
      TrimRightBlanks("", w, cut);
      TrimStops("", cut);
    } else {
      TrimStops(w + s, cut);
      TrimLeftBlanks(w, s, cut);
      TrimStops(s, cut);
    }
  }

  /** A value without quotes at its edges survives being put in quotes. */
  lemma {:induction false} TrimQuoted(v: string)
    requires Trimmed(v, Quote)
    ensures TrimQuotes(['"'] + v + ['"']) == v
  {
    TrimAround(['"'], v, ['"'], Quote);
  }

  /** The pieces of s between occurrences of sep; there is always at least one. */
  function Split(s: string, sep: char): (parts: seq<string>)
    ensures |parts| >= 1
    decreases |s|
  {
    var i := Index(s, sep);
    if i == -1 then [s] else [s[..i]] + Split(s[i + 1..], sep)
  }

  lemma {:induction false} SplitPieces(s: string, sep: char)
    ensures forall p | p in Split(s, sep) :: sep !in p && forall c | c in p :: c in s
    decreases |s|
  {
    IndexFirst(s, sep);
    hide Index;
    var i := Index(s, sep);
    if i != -1 {
      SplitPieces(s[i + 1..], sep);
      forall p | p in Split(s, sep)
        ensures sep !in p && forall c | c in p :: c in s
      {
        assert p == s[..i] || p in Split(s[i + 1..], sep);
      }
    }
  }

  lemma {:induction false} SplitFirst(a: string, sep: char, b: string)
    requires sep !in a
    ensures Split(a + [sep] + b, sep) == [a] + Split(b, sep)
  {
    var s := a + [sep] + b;
    IndexAt(a, sep, b);
    assert s[..|a|] == a && s[|a| + 1..] == b;
  }

  /** Splitting a text that contains a separator is splitting its two sides. */
  lemma {:induction false} SplitAppend(a: string, sep: char, b: string)
    ensures Split(a + [sep] + b, sep) == Split(a, sep) + Split(b, sep)
    decreases |a|
  {
    IndexFirst(a, sep);
    var i := Index(a, sep);
    if i == -1 {
      SplitFirst(a, sep, b);
    } else {
      var head, tail := a[..i], a[i + 1..];
      var rest := tail + [sep] + b;
      assert a + [sep] + b == head + [sep] + rest;
      calc {
        Split(a + [sep] + b, sep);
        { SplitFirst(head, sep, rest); }
        [head] + Split(rest, sep);
        { SplitAppend(tail, sep, b); }
        [head] + (Split(tail, sep) + Split(b, sep));
        ([head] + Split(tail, sep)) + Split(b, sep);
        Split(a, sep) + Split(b, sep);
      }
    }
  }

  function Join(parts: seq<string>, sep: string): string {
    if parts == [] then "" else if |parts| == 1 then parts[0] else parts[0] + sep + Join(parts[1..], sep)
  }

  /** Splitting undoes joining when no piece holds the separator. */
  lemma {:induction false} SplitJoin(parts: seq<string>, sep: char)
    requires |parts| >= 1
    requires forall p | p in parts :: sep !in p
    ensures Split(Join(parts, [sep]), sep) == parts
  {
    if |parts| == 1 {
      IndexFirst(parts[0], sep);
    } else {
      SplitJoin(parts[1..], sep);
      SplitFirst(parts[0], sep, Join(parts[1..], [sep]));
    }
  }

  function ToLower(s: string): (r: string)
    ensures |r| == |s|
  {
    seq(|s|, i requires 0 <= i < |s| => if 'A' <= s[i] <= 'Z' then s[i] - 'A' + 'a' else s[i])
  }
}
