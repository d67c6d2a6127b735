/**
  `collapseWhitespace` of packages/watchdog/src/canonicalize.ts: runs of ASCII
  whitespace become one space, then `trim` removes padding of any JavaScript
  whitespace. Two strings collapse alike exactly when they have the same words.
 */
module Whitespace {
  import opened Text

  /** The character class `[ \t\n\r]`. */
  predicate Ascii(c: char)
    ensures Ascii(c) ==> IsSpace(c)
  {
    c == ' ' || c == '\t' || c == '\n' || c == '\r'
  }

  function DropAscii(s: string): (r: string)
    ensures |r| <= |s| && (r != [] ==> !Ascii(r[0]))
  {
    if s != [] && Ascii(s[0]) then DropAscii(s[1..]) else s
  }

  /** `s.replace(/[ \t\n\r]+/g, " ")`. */
  function CollapseRuns(s: string): string
    decreases |s|
  {
    if s == [] then []
    else if Ascii(s[0]) then [' '] + CollapseRuns(DropAscii(s[1..]))
    else [s[0]] + CollapseRuns(s[1..])
  }

  function Collapse(s: string): string {
    Trim(CollapseRuns(s))
  }

  // ----- words --------------------------------------------------------------

  /** What stands between words: a space, a tab, a line feed or a carriage return. */
  predicate Separates(c: char) {
    c in {' ', '\t', '\n', '\r'}
  }

  /** The length of the leading run without separators. */
  function WordLength(s: string): (n: nat)
    ensures n <= |s| && (forall i :: 0 <= i < n ==> !Separates(s[i])) && (n < |s| ==> Separates(s[n]))
  {
    if s == [] || Separates(s[0]) then 0 else 1 + WordLength(s[1..])
  }

  /** The maximal chunks without separators. */
  function Words(s: string): (ws: seq<string>)
    ensures forall w :: w in ws ==> w != [] && forall i :: 0 <= i < |w| ==> !Separates(w[i])
    decreases |s|
  {
    if s == [] then []
    else if Separates(s[0]) then Words(s[1..])
    else
      var n := WordLength(s);
      [s[..n]] + Words(s[n..])
  }

  /** The same words once padding is gone. */
  ghost predicate SameWords(s: string, t: string) {
    Words(Trim(s)) == Words(Trim(t))
  }

  // ----- collapsing commutes with trimming ----------------------------------

  lemma {:induction false} DropAsciiTrims(s: string)
    ensures TrimStart(DropAscii(s)) == TrimStart(s)
  {
    if s != [] && Ascii(s[0]) { DropAsciiTrims(s[1..]); }
  }

  lemma TrimStartCons(c: char, s: string)
    ensures IsSpace(c) ==> TrimStart([c] + s) == TrimStart(s)
    ensures !IsSpace(c) ==> TrimStart([c] + s) == [c] + s
  {
    assert ([c] + s)[1..] == s;
  }

  lemma {:induction false} CollapseTrimStart(s: string)
    ensures TrimStart(CollapseRuns(s)) == CollapseRuns(TrimStart(s))
    decreases |s|
  {
    if s != [] {
      var c, t := s[0], s[1..];
      TrimStartCons(c, t);
      assert s == [c] + t;
      if Ascii(c) {
        var rest := DropAscii(t);
        CollapseTrimStart(rest);
        DropAsciiTrims(t);
        TrimStartCons(' ', CollapseRuns(rest));
      } else {
        CollapseTrimStart(t);
        TrimStartCons(c, CollapseRuns(t));
      }
    }
  }

  predicate EndsAscii(s: string) {
    s != [] && Ascii(s[|s| - 1])
  }

  lemma CollapseCons(c: char, s: string)
    ensures CollapseRuns([c] + s) == if Ascii(c) then [' '] + CollapseRuns(DropAscii(s)) else [c] + CollapseRuns(s)
  {
    assert ([c] + s)[1..] == s;
  }

  /** What a further character adds to collapsed text. */
  function Added(s: string, c: char): string {
    if !Ascii(c) then [c] else if EndsAscii(s) then [] else [' ']
  }

  lemma SnocAfterWord(d: char, t: string, c: char)
    requires !Ascii(d) && CollapseRuns(t + [c]) == CollapseRuns(t) + Added(t, c)
    ensures CollapseRuns([d] + (t + [c])) == CollapseRuns([d] + t) + Added([d] + t, c)
  {
    CollapseCons(d, t);
    CollapseCons(d, t + [c]);
    assert EndsAscii([d] + t) == EndsAscii(t);
  }

  lemma SnocAfterSpace(d: char, t: string, c: char)
    requires Ascii(d)
    requires var rest := DropAscii(t); rest != [] ==> CollapseRuns(rest + [c]) == CollapseRuns(rest) + Added(rest, c)
    ensures CollapseRuns([d] + (t + [c])) == CollapseRuns([d] + t) + Added([d] + t, c)
  {
    CollapseCons(d, t);
    CollapseCons(d, t + [c]);
    DropAsciiSnoc(t, c);
    SpaceThenMore(DropAscii(t), c);
    LastOfCons(d, t, c);
  }

  lemma LastOfCons(d: char, t: string, c: char)
    requires Ascii(d)
    ensures Added([d] + t, c) == if t == [] then Added([d], c) else Added(t, c)
  {
  }

  /** What is added after `' '` and the collapsed `rest`. */
  lemma SpaceThenMore(rest: string, c: char)
    requires rest != [] ==> CollapseRuns(rest + [c]) == CollapseRuns(rest) + Added(rest, c)
    ensures rest != [] ==>
      [' '] + CollapseRuns(rest + [c]) == [' '] + CollapseRuns(rest) + Added(rest, c)
    ensures rest == [] ==> CollapseRuns([]) == [] && CollapseRuns([c]) == if Ascii(c) then [' '] else [c]
  {
    CollapseCons(c, []);
    assert [c] + [] == [c];
  }

  /** Collapsing, read from the right. */
  lemma {:induction false} CollapseSnoc(s: string, c: char)
    ensures CollapseRuns(s + [c]) == CollapseRuns(s) + Added(s, c)
    decreases |s|
  {
    if s == [] {
      CollapseCons(c, []);
      assert s + [c] == [c] == [c] + [];
    } else {
      var d, t := s[0], s[1..];
      assert s == [d] + t && s + [c] == [d] + (t + [c]);
      if Ascii(d) {
        if DropAscii(t) != [] { CollapseSnoc(DropAscii(t), c); }
        SnocAfterSpace(d, t, c);
      } else {
        CollapseSnoc(t, c);
        SnocAfterWord(d, t, c);
      }
    }
  }

  lemma {:induction false} DropAsciiSnoc(s: string, c: char)
    ensures DropAscii(s + [c]) == if DropAscii(s) != [] then DropAscii(s) + [c] else if Ascii(c) then [] else [c]
    ensures DropAscii(s) != [] ==> EndsAscii(DropAscii(s)) == EndsAscii(s)
    ensures DropAscii(s) == [] && s != [] ==> EndsAscii(s)
  {
    if s == [] {
      assert s + [c] == [c] && [c][1..] == [];
    } else if Ascii(s[0]) {
      assert (s + [c])[1..] == s[1..] + [c];
      DropAsciiSnoc(s[1..], c);
    }
  }

  lemma {:induction false} CollapseTrimEnd(s: string)
    ensures TrimEnd(CollapseRuns(s)) == CollapseRuns(TrimEnd(s))
    decreases |s|
  {
    if s != [] {
      var front, c := s[..|s| - 1], s[|s| - 1];
      assert s == front + [c];
      CollapseSnoc(front, c);
      var done := CollapseRuns(front);
      if IsSpace(c) {
        CollapseTrimEnd(front);
        assert (done + [c])[..|done|] == done && (done + [' '])[..|done|] == done && done + [] == done;
      } else {
        assert CollapseRuns(s)[|done|] == c;
      }
    }
  }

  lemma CollapseIsTrimmedFirst(s: string)
    ensures Collapse(s) == CollapseRuns(Trim(s))
  {
    CollapseTrimStart(s);
    CollapseTrimEnd(TrimStart(s));
  }

  // ----- collapsed text is its words with single spaces ---------------------

  lemma {:induction false} CollapseWord(s: string, n: nat)
    requires n <= |s| && forall i :: 0 <= i < n ==> !Ascii(s[i])
    ensures CollapseRuns(s) == s[..n] + CollapseRuns(s[n..])
  {
    if n > 0 {
      CollapseWord(s[1..], n - 1);
      assert s[..n] == [s[0]] + s[1..][..n - 1] && s[n..] == s[1..][n - 1..];
    } else {
      assert s[..0] == [] && s[0..] == s;
    }
  }

  lemma {:induction false} DropAsciiWords(s: string)
    ensures Words(DropAscii(s)) == Words(s)
    ensures DropAscii(s) != [] ==> EndsAscii(DropAscii(s)) == EndsAscii(s)
    ensures DropAscii(s) == [] && s != [] ==> EndsAscii(s)
  {
    if s != [] && Ascii(s[0]) { DropAsciiWords(s[1..]); }
  }

  lemma JoinCons(w: string, ws: seq<string>)
    ensures Join([w] + ws, ' ') == if ws == [] then w else w + ([' '] + Join(ws, ' '))
  {
    assert ([w] + ws)[1..] == ws;
    assert w + ([' '] + Join(ws, ' ')) == w + [' '] + Join(ws, ' ');
  }

  /** Dropping the first character and the whitespace after it keeps what the text ends with. */
  lemma DropKeepsEnd(s: string)
    requires s != [] && Ascii(s[0]) && !EndsAscii(s)
    ensures var rest := DropAscii(s[1..]); rest != [] && !EndsAscii(rest) && Words(s) == Words(rest)
  {
    assert |s| > 1;
    DropAsciiWords(s[1..]);
  }

  /** One word, then what follows the whitespace after it. */
  lemma FirstWord(s: string) returns (w: string, rest: string)
    requires s != [] && !Ascii(s[0]) && !EndsAscii(s)
    ensures |rest| < |s| && (rest != [] ==> !Ascii(rest[0]) && !EndsAscii(rest))
    ensures Words(s) == [w] + Words(rest)
    ensures CollapseRuns(s) == if rest == [] then w else w + ([' '] + CollapseRuns(rest))
    ensures rest == [] <==> Words(rest) == []
  {
    var n := WordLength(s);
    CollapseWord(s, n);
    w, rest := s[..n], [];
    var tail := s[n..];
    if tail != [] {
      assert EndsAscii(tail) == EndsAscii(s);
      DropKeepsEnd(tail);
      rest := DropAscii(tail[1..]);
    }
  }

  lemma {:induction false} CollapsedIsJoined(s: string)
    requires s != [] ==> !Ascii(s[0]) && !EndsAscii(s)
    ensures CollapseRuns(s) == Join(Words(s), ' ')
    decreases |s|
  {
    if s != [] {
      var w, rest := FirstWord(s);
      CollapsedIsJoined(rest);
      JoinCons(w, Words(rest));
    }
  }

  /** Collapsing gives the words of the trimmed text, one space apart. */
  lemma CollapseIsWords(s: string)
    ensures Collapse(s) == Join(Words(Trim(s)), ' ')
  {
    CollapseIsTrimmedFirst(s);
    CollapsedIsJoined(Trim(s));
  }

  /** Two strings collapse alike exactly when they have the same words. */
  lemma CollapseIff(s: string, t: string)
    ensures Collapse(s) == Collapse(t) <==> SameWords(s, t)
  {
    CollapseIsWords(s);
    CollapseIsWords(t);
    JoinedWords(Words(Trim(s)), Words(Trim(t)));
  }

  lemma JoinedWords(a: seq<string>, b: seq<string>)
    requires forall w :: w in a || w in b ==> w != [] && ' ' !in w
    ensures Join(a, ' ') == Join(b, ' ') ==> a == b
  {
    if Join(a, ' ') == Join(b, ' ') {
      if a == [] || b == [] {
        if a != [] { assert a[0] in a; JoinNonEmpty(a); }
        if b != [] { assert b[0] in b; JoinNonEmpty(b); }
      } else {
        SplitJoin(a, ' ');
        SplitJoin(b, ' ');
      }
    }
  }

  lemma JoinNonEmpty(a: seq<string>)
    requires a != [] && a[0] != []
    ensures Join(a, ' ') != []
  {
  }

  lemma CollapseIdempotent(s: string)
    ensures Collapse(Collapse(s)) == Collapse(s)
  {
    CollapseIsTrimmedFirst(s);
    CollapseTwice(Trim(s));
    CollapseTrimStart(s);
    CollapseTrimEnd(TrimStart(s));
    TrimTrimmed(Collapse(s));
    CollapseIsTrimmedFirst(Collapse(s));
  }

  lemma {:induction false} CollapseTwice(s: string)
    ensures CollapseRuns(CollapseRuns(s)) == CollapseRuns(s)
    decreases |s|
  {
    if s != [] {
      if Ascii(s[0]) {
        var rest := DropAscii(s[1..]);
        CollapseTwice(rest);
        var done := CollapseRuns(rest);
        assert ([' '] + done)[1..] == done;
        assert DropAscii(done) == done;
      } else {
        CollapseTwice(s[1..]);
        assert ([s[0]] + CollapseRuns(s[1..]))[1..] == CollapseRuns(s[1..]);
      }
    }
  }

  /** Padding goes whatever kind of space it is, against the comment that speaks of ASCII whitespace. */
  lemma PaddingGoes(c: char, s: string)
    requires IsSpace(c)
    ensures Collapse([c] + s) == Collapse(s)
    ensures IsSpace('\U{A0}') && !Ascii('\U{A0}')
  {
    TrimStartCons(c, s);
    CollapseIsTrimmedFirst([c] + s);
    CollapseIsTrimmedFirst(s);
  }

  // ----- the separators are alike --------------------------------------------

  lemma {:induction false} DropAsciiConcat(a: string, c: char, b: string)
    requires Separates(c)
    ensures DropAscii(a + [c] + b) == if DropAscii(a) == [] then DropAscii(b) else DropAscii(a) + [c] + b
  {
    if a == [] {
      assert a + [c] + b == [c] + b && ([c] + b)[1..] == b;
    } else {
      assert (a + [c] + b)[0] == a[0] && (a + [c] + b)[1..] == a[1..] + [c] + b;
      if Ascii(a[0]) { DropAsciiConcat(a[1..], c, b); }
    }
  }

  /** What collapses after `a` and a separator does not depend on which separator it is. */
  lemma {:induction false} RunsAlike(a: string, c: char, d: char, b: string)
    requires Separates(c) && Separates(d)
    ensures CollapseRuns(a + [c] + b) == CollapseRuns(a + [d] + b)
    decreases |a|
  {
    if a == [] {
      assert a + [c] + b == [c] + b && a + [d] + b == [d] + b;
      CollapseCons(c, b);
      CollapseCons(d, b);
    } else {
      var t := a[1..];
      assert a + [c] + b == [a[0]] + (t + [c] + b) && a + [d] + b == [a[0]] + (t + [d] + b);
      CollapseCons(a[0], t + [c] + b);
      CollapseCons(a[0], t + [d] + b);
      if Ascii(a[0]) {
        DropAsciiConcat(t, c, b);
        DropAsciiConcat(t, d, b);
        if DropAscii(t) != [] { RunsAlike(DropAscii(t), c, d, b); }
      } else {
        RunsAlike(t, c, d, b);
      }
    }
  }

  /**
    Space, tab, line feed and carriage return separate alike, wherever one stands,
    and a pair separates as one does.
   */
  lemma SeparatorsAreAlike(a: string, c: char, d: char, b: string)
    requires c == ' ' || c == '\t' || c == '\n' || c == '\r'
    requires d == ' ' || d == '\t' || d == '\n' || d == '\r'
    ensures Collapse(a + [c] + b) == Collapse(a + [d] + b)
    ensures Collapse(a + [c] + ([d] + b)) == Collapse(a + [d] + b)
  {
    RunsAlike(a, c, d, b);
    RunsMerge(a, c, d, b);
  }

  lemma {:induction false} RunsMerge(a: string, c: char, d: char, b: string)
    requires Separates(c) && Separates(d)
    ensures CollapseRuns(a + [c] + ([d] + b)) == CollapseRuns(a + [d] + b)
    decreases |a|
  {
    assert ([d] + b)[1..] == b;
    if a == [] {
      assert a + [c] + ([d] + b) == [c] + ([d] + b) && a + [d] + b == [d] + b;
      CollapseCons(c, [d] + b);
      CollapseCons(d, b);
    } else {
      var t := a[1..];
      assert a + [c] + ([d] + b) == [a[0]] + (t + [c] + ([d] + b)) && a + [d] + b == [a[0]] + (t + [d] + b);
      CollapseCons(a[0], t + [c] + ([d] + b));
      CollapseCons(a[0], t + [d] + b);
      if Ascii(a[0]) {
        DropAsciiConcat(t, c, [d] + b);
        DropAsciiConcat(t, d, b);
        if DropAscii(t) != [] { RunsMerge(DropAscii(t), c, d, b); }
      } else {
        RunsMerge(t, c, d, b);
      }
    }
  }
}
