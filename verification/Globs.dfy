/**
  packages/mailbox/src/globs.ts: the overlap test that guards lease acquisition
  and the match test that guards commits.

  The two deciders are related through the set of concrete paths a glob accepts.
  The overlap test never invents an overlap, and misses one exactly through a
  pair of crossed partial segments such as `foo*` against `*.ts`.
 */
module Globs {
  import opened Text

  // ----- the code -----------------------------------------------------------

  /** The non-empty chunks of a glob or path between slashes. */
  function Segments(glob: string): (segs: seq<string>)
    ensures IsPath(segs)
  {
    var kept := NonEmpty(Split(glob, '/'));
    assert forall i :: 0 <= i < |kept| ==> kept[i] in kept;
    kept
  }

  function NonEmpty(parts: seq<string>): (kept: seq<string>)
    ensures forall s :: s in kept ==> s in parts && s != []
  {
    if parts == [] then []
    else (if parts[0] == [] then [] else [parts[0]]) + NonEmpty(parts[1..])
  }

  /** What a regular expression dot accepts: everything except line terminators. */
  predicate Dot(c: char) {
    c != '\n' && c != '\r' && c != '\U{2028}' && c != '\U{2029}'
  }

  /** The anchored regular expression built from `pat`: literal characters, and `.*` for each star. */
  predicate WildMatch(pat: string, s: string)
    decreases |pat| + |s|
  {
    if pat == [] then s == []
    else if pat[0] == '*' then
      WildMatch(pat[1..], s) || (s != [] && Dot(s[0]) && WildMatch(pat, s[1..]))
    else s != [] && s[0] == pat[0] && WildMatch(pat[1..], s[1..])
  }

  /** The pattern with every star replaced by the placeholder `X`. */
  function Concrete(pat: string): string {
    if pat == [] then []
    else [if pat[0] == '*' then 'X' else pat[0]] + Concrete(pat[1..])
  }

  predicate SegmentsCompatible(a: string, b: string) {
    if a == b then true
    else if '*' !in a && '*' !in b then false
    else if a == "*" || b == "*" then true
    else WildMatch(b, Concrete(a)) || WildMatch(a, Concrete(b))
  }

  predicate AllGlobstars(segs: seq<string>) {
    forall i :: 0 <= i < |segs| ==> segs[i] == "**"
  }

  /** The two-sided walk, for any per-segment test. */
  predicate WalkWith(compatible: (string, string) -> bool, a: seq<string>, b: seq<string>)
    decreases |a| + |b|
  {
    if a == [] then AllGlobstars(b)
    else if b == [] then AllGlobstars(a)
    else if a[0] == "**" then
      WalkWith(compatible, a[1..], b) || WalkWith(compatible, a, b[1..])
    else if b[0] == "**" then
      WalkWith(compatible, a, b[1..]) || WalkWith(compatible, a[1..], b)
    else compatible(a[0], b[0]) && WalkWith(compatible, a[1..], b[1..])
  }

  predicate GlobsOverlap(a: string, b: string) {
    WalkWith(SegmentsCompatible, Segments(a), Segments(b))
  }

  /** One glob segment other than `**` against one path segment. */
  predicate SegmentMatches(glob: string, name: string) {
    if glob == "*" then true
    else if '*' in glob then WildMatch(glob, name)
    else glob == name
  }

  predicate MatchesSegments(glob: seq<string>, path: seq<string>)
    decreases |glob| + |path|
  {
    if glob == [] then path == []
    else if glob[0] == "**" then
      MatchesSegments(glob[1..], path) || (path != [] && MatchesSegments(glob, path[1..]))
    else path != [] && SegmentMatches(glob[0], path[0]) && MatchesSegments(glob[1..], path[1..])
  }

  predicate GlobMatchesPath(glob: string, path: string) {
    MatchesSegments(Segments(glob), Segments(path))
  }

  // ----- what the code is about ---------------------------------------------

  /** A path segment: non-empty and free of slashes. */
  predicate IsName(s: string) {
    s != [] && '/' !in s
  }

  predicate IsPath(segs: seq<string>) {
    forall i :: 0 <= i < |segs| ==> IsName(segs[i])
  }

  /** Some concrete path is accepted by both globs. */
  ghost predicate SharePath(a: string, b: string) {
    exists path: string :: GlobMatchesPath(a, path) && GlobMatchesPath(b, path)
  }

  ghost predicate ShareName(a: string, b: string) {
    exists name: string :: IsName(name) && SegmentMatches(a, name) && SegmentMatches(b, name)
  }

  /** Every path segment list is the segment list of its joined form. */
  lemma SegmentsOfJoin(segs: seq<string>)
    requires IsPath(segs)
    ensures Segments(Join(segs, '/')) == segs
  {
    if segs == [] {
      assert Split([], '/') == [[]];
      assert NonEmpty([[]]) == NonEmpty([[]][1..]);
    } else {
      SplitJoin(segs, '/');
      NonEmptyId(segs);
    }
  }

  lemma NonEmptyId(segs: seq<string>)
    requires IsPath(segs)
    ensures NonEmpty(segs) == segs
  {
    if segs != [] {
      NonEmptyId(segs[1..]);
      assert [segs[0]] + segs[1..] == segs;
    }
  }

  // ----- patterns against one segment ---------------------------------------

  lemma {:induction false} LiteralMatch(pat: string, s: string)
    requires '*' !in pat
    ensures WildMatch(pat, s) <==> pat == s
  {
    if pat != [] && s != [] {
      LiteralMatch(pat[1..], s[1..]);
      assert [pat[0]] + pat[1..] == pat && [s[0]] + s[1..] == s;
    }
  }

  lemma {:induction false} ConcreteMatches(pat: string)
    ensures WildMatch(pat, Concrete(pat))
    ensures |Concrete(pat)| == |pat|
    ensures '/' !in pat ==> '/' !in Concrete(pat)
    ensures '*' !in pat ==> Concrete(pat) == pat
  {
    if pat != [] {
      ConcreteMatches(pat[1..]);
      assert Concrete(pat)[1..] == Concrete(pat[1..]);
    }
  }

  /** Patterns and the strings they accept concatenate. */
  lemma {:induction false} MatchConcat(p: string, q: string, s: string, t: string)
    requires WildMatch(p, s) && WildMatch(q, t)
    ensures WildMatch(p + q, s + t)
    decreases |p| + |s|
  {
    if p == [] {
      assert p + q == q && s + t == t;
    } else {
      assert (p + q)[1..] == p[1..] + q;
      if p[0] == '*' && WildMatch(p[1..], s) {
        MatchConcat(p[1..], q, s, t);
      } else {
        assert (s + t)[1..] == s[1..] + t;
        MatchConcat(if p[0] == '*' then p else p[1..], q, s[1..], t);
      }
    }
  }

  // ----- literal affixes: an exact test for two starred patterns ------------

  function FirstStar(pat: string): (i: nat)
    requires '*' in pat
    ensures i < |pat| && pat[i] == '*' && '*' !in pat[..i]
  {
    if pat[0] == '*' then 0 else
      var i := 1 + FirstStar(pat[1..]);
      assert pat[..i] == [pat[0]] + pat[1..][..i - 1];
      i
  }

  function LastStar(pat: string): (i: nat)
    requires '*' in pat
    ensures i < |pat| && pat[i] == '*' && '*' !in pat[i + 1..]
  {
    var last := |pat| - 1;
    if pat[last] == '*' then last else
      assert '*' in pat[..last] by { var k :| 0 <= k < |pat| && pat[k] == '*'; assert pat[..last][k] == '*'; }
      var i := LastStar(pat[..last]);
      assert pat[i + 1..] == pat[..last][i + 1..] + [pat[last]];
      i
  }

  /** The literal text before the first star. */
  function Head(pat: string): (h: string)
    requires '*' in pat
    ensures '*' !in h
  {
    pat[..FirstStar(pat)]
  }

  /** The literal text after the last star. */
  function Tail(pat: string): (t: string)
    requires '*' in pat
    ensures '*' !in t
  {
    pat[LastStar(pat) + 1..]
  }

  /** One of the two heads begins with the other, and one of the two tails ends with the other. */
  predicate AffixesAgree(a: string, b: string)
    requires '*' in a && '*' in b
  {
    && (Head(a) <= Head(b) || Head(b) <= Head(a))
    && (EndsWith(Tail(a), Tail(b)) || EndsWith(Tail(b), Tail(a)))
  }

  lemma {:induction false} HeadIsPrefix(pat: string, s: string)
    requires '*' in pat && WildMatch(pat, s)
    ensures Head(pat) <= s
  {
    if pat[0] != '*' {
      HeadIsPrefix(pat[1..], s[1..]);
      assert Head(pat) == [pat[0]] + Head(pat[1..]);
    }
  }

  lemma {:induction false} TailIsSuffix(pat: string, s: string)
    requires '*' in pat && WildMatch(pat, s)
    ensures EndsWith(s, Tail(pat))
    decreases |pat| + |s|
  {
    var rest := pat[1..];
    if pat[0] == '*' && !WildMatch(rest, s) {
      TailIsSuffix(pat, s[1..]);
    } else if '*' in rest {
      TailIsSuffix(rest, if pat[0] == '*' then s else s[1..]);
      LastStarOfRest(pat);
    } else {
      LastStarUnique(pat, 0);
      LiteralMatch(rest, s);
    }
  }

  lemma LastStarUnique(pat: string, i: nat)
    requires i < |pat| && pat[i] == '*' && '*' !in pat[i + 1..]
    ensures LastStar(pat) == i
  {
    var j := LastStar(pat);
    assert forall k :: i < k < |pat| ==> pat[k] == pat[i + 1..][k - i - 1];
    assert forall k :: j < k < |pat| ==> pat[k] == pat[j + 1..][k - j - 1];
  }

  lemma LastStarOfRest(pat: string)
    requires '*' in pat && '*' in pat[1..]
    ensures LastStar(pat) == 1 + LastStar(pat[1..])
    ensures Tail(pat) == Tail(pat[1..])
  {
    var j := LastStar(pat[1..]);
    assert pat[1..][j + 1..] == pat[j + 2..];
    LastStarUnique(pat, j + 1);
  }

  /** If one string is accepted by both starred patterns, their literal ends agree. */
  lemma AffixesNecessary(a: string, b: string, s: string)
    requires '*' in a && '*' in b && WildMatch(a, s) && WildMatch(b, s)
    ensures AffixesAgree(a, b)
  {
    HeadIsPrefix(a, s);
    HeadIsPrefix(b, s);
    TailIsSuffix(a, s);
    TailIsSuffix(b, s);
  }

  predicate SingleLine(s: string) {
    forall i :: 0 <= i < |s| ==> Dot(s[i])
  }

  /** The literal characters of a pattern. */
  function Literals(pat: string): string {
    if pat == [] then []
    else (if pat[0] == '*' then [] else [pat[0]]) + Literals(pat[1..])
  }

  lemma {:induction false} LiteralsMatch(pat: string)
    ensures WildMatch(pat, Literals(pat))
  {
    if pat != [] {
      LiteralsMatch(pat[1..]);
      if pat[0] == '*' {
        assert Literals(pat) == Literals(pat[1..]);
      } else {
        assert Literals(pat)[1..] == Literals(pat[1..]);
      }
    }
  }

  lemma LiteralsKeep(pat: string)
    ensures forall i :: 0 <= i < |Literals(pat)| ==> Literals(pat)[i] in pat
  {
    if pat != [] { LiteralsKeep(pat[1..]); }
  }

  lemma {:induction false} StarMatches(s: string)
    requires SingleLine(s)
    ensures WildMatch("*", s)
  {
    if s != [] { StarMatches(s[1..]); }
  }

  /** The part of a pattern strictly between its first and its last star. */
  function Core(pat: string): string
    requires '*' in pat
  {
    var i, j := FirstStar(pat), LastStar(pat);
    if j <= i then [] else pat[i + 1..j]
  }

  lemma StarOrder(pat: string)
    requires '*' in pat
    ensures FirstStar(pat) <= LastStar(pat)
  {
    var i := FirstStar(pat);
    assert forall k :: 0 <= k < i ==> pat[k] == pat[..i][k];
  }

  lemma CoreSplits(pat: string)
    requires '*' in pat
    ensures (pat == Head(pat) + "*" + Tail(pat) && Core(pat) == []) ||
      pat == Head(pat) + ("*" + Core(pat) + "*") + Tail(pat)
  {
    StarOrder(pat);
    SplitAtStars(pat, FirstStar(pat), LastStar(pat));
  }

  lemma SplitAtStars(pat: string, i: nat, j: nat)
    requires i <= j < |pat| && pat[i] == '*' && pat[j] == '*'
    ensures i == j ==> pat == pat[..i] + "*" + pat[j + 1..]
    ensures i < j ==> pat == pat[..i] + ("*" + pat[i + 1..j] + "*") + pat[j + 1..]
  {
    assert pat[i..i + 1] == "*" && pat[j..j + 1] == "*";
    if i < j {
      assert pat == pat[..i] + pat[i..j + 1] + pat[j + 1..];
      assert pat[i..j + 1] == "*" + pat[i + 1..j] + "*";
    }
  }

  lemma DoubleStarMatches(core: string, x: string, y: string)
    requires SingleLine(x) && SingleLine(y)
    ensures WildMatch("*" + core + "*", x + Literals(core) + y)
  {
    StarMatches(x);
    StarMatches(y);
    LiteralsMatch(core);
    MatchConcat("*", core, x, Literals(core));
    MatchConcat("*" + core, "*", x + Literals(core), y);
  }

  lemma WrapMatch(h: string, mid: string, t: string, s: string)
    requires '*' !in h && '*' !in t && WildMatch(mid, s)
    ensures WildMatch(h + mid + t, h + s + t)
  {
    LiteralMatch(h, h);
    LiteralMatch(t, t);
    MatchConcat(h, mid, h, s);
    MatchConcat(h + mid, t, h + s, t);
  }

  /** A starred pattern accepts head + padding + core literals + padding + tail. */
  lemma PaddedMatch(pat: string, x: string, y: string)
    requires '*' in pat && SingleLine(x) && SingleLine(y)
    ensures WildMatch(pat, Head(pat) + (x + Literals(Core(pat)) + y) + Tail(pat))
  {
    CoreSplits(pat);
    var core := Core(pat);
    var s := x + Literals(core) + y;
    if core == [] && pat == Head(pat) + "*" + Tail(pat) {
      assert s == x + y;
      StarMatches(s);
      WrapMatch(Head(pat), "*", Tail(pat), s);
    } else {
      DoubleStarMatches(core, x, y);
      WrapMatch(Head(pat), "*" + core + "*", Tail(pat), s);
    }
  }

  function LongerHead(a: string, b: string): (h: string)
    requires '*' in a && '*' in b
    ensures AffixesAgree(a, b) ==> Head(a) <= h && Head(b) <= h
    ensures h == Head(a) || h == Head(b)
  {
    if Head(a) <= Head(b) then Head(b) else Head(a)
  }

  function LongerTail(a: string, b: string): (t: string)
    requires '*' in a && '*' in b
    ensures AffixesAgree(a, b) ==> EndsWith(t, Tail(a)) && EndsWith(t, Tail(b))
    ensures t == Tail(a) || t == Tail(b)
  {
    if EndsWith(Tail(b), Tail(a)) then Tail(b) else Tail(a)
  }

  /** A name accepted by both patterns whenever their literal ends agree. */
  function Blend(a: string, b: string): string
    requires '*' in a && '*' in b
  {
    LongerHead(a, b) + (Literals(Core(a)) + Literals(Core(b))) + LongerTail(a, b)
  }

  lemma PiecesSingleLine(pat: string)
    requires '*' in pat && SingleLine(pat)
    ensures SingleLine(Head(pat)) && SingleLine(Tail(pat)) && SingleLine(Literals(Core(pat)))
  {
    LiteralsKeep(Core(pat));
  }

  lemma PiecesSlashFree(pat: string)
    requires '*' in pat && '/' !in pat
    ensures '/' !in Head(pat) && '/' !in Tail(pat) && '/' !in Literals(Core(pat))
  {
    LiteralsKeep(Core(pat));
  }

  lemma AffixesSufficient(a: string, b: string)
    requires '*' in a && '*' in b && SingleLine(a) && SingleLine(b)
    requires AffixesAgree(a, b)
    ensures WildMatch(a, Blend(a, b)) && WildMatch(b, Blend(a, b))
  {
    BlendLeft(a, b);
    BlendRight(a, b);
  }

  lemma BlendLeft(a: string, b: string)
    requires '*' in a && '*' in b && SingleLine(a) && SingleLine(b) && AffixesAgree(a, b)
    ensures WildMatch(a, Blend(a, b))
  {
    PiecesSingleLine(a);
    PiecesSingleLine(b);
    var la, lb := Literals(Core(a)), Literals(Core(b));
    var h, t := Pieces(LongerHead(a, b), Head(a), LongerTail(a, b), Tail(a));
    assert [] + la == la;
    BlendMatch(a, h, [], lb, t, Blend(a, b));
  }

  lemma BlendRight(a: string, b: string)
    requires '*' in a && '*' in b && SingleLine(a) && SingleLine(b) && AffixesAgree(a, b)
    ensures WildMatch(b, Blend(a, b))
  {
    PiecesSingleLine(a);
    PiecesSingleLine(b);
    var la, lb := Literals(Core(a)), Literals(Core(b));
    var h, t := Pieces(LongerHead(a, b), Head(b), LongerTail(a, b), Tail(b));
    EmptyRight(la + lb);
    BlendMatch(b, h, la, [], t, Blend(a, b));
  }

  lemma EmptyRight(x: string)
    ensures x + [] == x
  {
  }

  lemma Pieces(h: string, head: string, t: string, tail: string) returns (h': string, t': string)
    requires head <= h && EndsWith(t, tail) && SingleLine(h) && SingleLine(t)
    ensures h == head + h' && t == t' + tail && SingleLine(h') && SingleLine(t')
  {
    h', t' := h[|head|..], t[..|t| - |tail|];
  }

  lemma BlendMatch(pat: string, h: string, x: string, y: string, t: string, name: string)
    requires '*' in pat && SingleLine(x) && SingleLine(y) && SingleLine(h) && SingleLine(t)
    requires name == (Head(pat) + h) + (x + Literals(Core(pat)) + y) + (t + Tail(pat))
    ensures WildMatch(pat, name)
  {
    PaddedMatch(pat, h + x, y + t);
    Regroup(Head(pat), h, x, Literals(Core(pat)), y, t, Tail(pat));
  }

  lemma Regroup(h: string, h': string, x: string, core: string, y: string, t': string, t: string)
    ensures (h + h') + (x + core + y) + (t' + t) == h + ((h' + x) + core + (y + t')) + t
  {
    assert (h' + x) + core + (y + t') == h' + (x + core + y) + t';
  }

  // ----- exactness for one pair of segments ---------------------------------

  /** A name both patterns accept, read off the branch that declared them compatible. */
  function CommonName(a: string, b: string): (name: string)
    requires IsName(a) && IsName(b) && SegmentsCompatible(a, b)
    ensures IsName(name) && SegmentMatches(a, name) && SegmentMatches(b, name)
  {
    ConcreteMatches(a);
    ConcreteMatches(b);
    if a == b || b == "*" then Concrete(a)
    else if a == "*" then Concrete(b)
    else if WildMatch(b, Concrete(a)) then
      (if '*' !in b then LiteralMatch(b, Concrete(a)); Concrete(a) else Concrete(a))
    else
      (if '*' !in a then LiteralMatch(a, Concrete(b)); Concrete(b) else Concrete(b))
  }

  /**
    The false negatives of the per-segment test: two partial patterns whose
    literal ends agree although neither accepts the other's placeholder form.
   */
  predicate Crossed(a: string, b: string) {
    && '*' in a && '*' in b && a != b
    && a != "*" && b != "*" && a != "**" && b != "**"
    && AffixesAgree(a, b)
    && !WildMatch(b, Concrete(a)) && !WildMatch(a, Concrete(b))
  }

  /** A segment pair that is refused although it shares a name is crossed; line terminators included. */
  lemma MissedOnlyIfCrossed(a: string, b: string)
    requires ShareName(a, b) && !SegmentsCompatible(a, b) && a != "**" && b != "**"
    ensures Crossed(a, b)
  {
    var s :| IsName(s) && SegmentMatches(a, s) && SegmentMatches(b, s);
    if '*' in a && '*' in b {
      AffixesNecessary(a, b, s);
    } else {
      ConcreteMatches(a);
      ConcreteMatches(b);
    }
  }

  lemma ConcatShape(h: string, x: string, y: string, t: string)
    requires SingleLine(h) && SingleLine(x) && SingleLine(y) && SingleLine(t)
    requires '/' !in h && '/' !in x && '/' !in y && '/' !in t
    ensures '/' !in h + (x + y) + t && SingleLine(h + (x + y) + t)
  {
  }

  lemma BlendShape(a: string, b: string)
    requires '*' in a && '*' in b && '/' !in a && '/' !in b && SingleLine(a) && SingleLine(b)
    ensures '/' !in Blend(a, b) && SingleLine(Blend(a, b))
  {
    PiecesSlashFree(a);
    PiecesSlashFree(b);
    PiecesSingleLine(a);
    PiecesSingleLine(b);
    ConcatShape(LongerHead(a, b), Literals(Core(a)), Literals(Core(b)), LongerTail(a, b));
  }

  /** A single-line name for two patterns whose literal ends agree. */
  lemma CrossedShares(a: string, b: string) returns (name: string)
    requires IsName(a) && IsName(b) && SingleLine(a) && SingleLine(b)
    requires '*' in a && '*' in b && AffixesAgree(a, b)
    ensures IsName(name) && SingleLine(name) && SegmentMatches(a, name) && SegmentMatches(b, name)
  {
    AffixesSufficient(a, b);
    BlendShape(a, b);
    name := NonEmptyName(a, b, Blend(a, b));
  }

  /** If two patterns accept the empty string they accept `X` as well. */
  lemma NonEmptyName(a: string, b: string, s: string) returns (name: string)
    requires a != [] && b != [] && '*' in a && '*' in b && '/' !in s && SingleLine(s) && WildMatch(a, s) &&
      WildMatch(b, s)
    ensures IsName(name) && SingleLine(name) && SegmentMatches(a, name) && SegmentMatches(b, name)
  {
    name := s;
    if s == [] {
      EmptyMeansStars(a);
      EmptyMeansStars(b);
      name := "X";
    }
  }

  lemma {:induction false} EmptyMeansStars(pat: string)
    requires WildMatch(pat, [])
    ensures pat != [] ==> WildMatch(pat, "X")
  {
    if pat != [] {
      assert pat[0] == '*' && Dot('X');
      assert WildMatch(pat, "X"[1..]);
    }
  }

  lemma GlobstarCompatible(a: string, b: string)
    requires SingleLine(b)
    ensures a == "**" ==> SegmentsCompatible(a, b)
  {
    if a == "**" {
      ConcreteSingleLine(b);
      StarMatches(Concrete(b));
      MatchConcat("*", "*", Concrete(b), []);
      assert Concrete(b) + [] == Concrete(b) && "*" + "*" == "**";
    }
  }

  lemma {:induction false} ConcreteSingleLine(pat: string)
    requires SingleLine(pat)
    ensures SingleLine(Concrete(pat))
  {
    if pat != [] { ConcreteSingleLine(pat[1..]); }
  }

  /**
    For single-line patterns the per-segment test answers the question it is
    asked exactly when the pair is not crossed.
   */
  lemma SegmentTestExactIff(a: string, b: string)
    requires IsName(a) && IsName(b) && SingleLine(a) && SingleLine(b)
    ensures (SegmentsCompatible(a, b) <==> ShareName(a, b)) <==> !Crossed(a, b)
  {
    if SegmentsCompatible(a, b) {
      var name := CommonName(a, b);
      assert ShareName(a, b);
    } else {
      GlobstarCompatible(a, b);
      GlobstarCompatible(b, a);
      if ShareName(a, b) { MissedOnlyIfCrossed(a, b); }
      if Crossed(a, b) {
        var name := CrossedShares(a, b);
      }
    }
  }

  /** The exact test without its crossed pairs: a test on the two segments alone. */
  predicate MeetsUncrossed(a: string, b: string) {
    NamesMeet(a, b) && !Crossed(a, b)
  }

  /** For single-line segments the code's test is the exact test without the crossed pairs. */
  lemma CompatibleIsUncrossed(a: string, b: string)
    requires IsName(a) && IsName(b) && SingleLine(a) && SingleLine(b)
    ensures SegmentsCompatible(a, b) <==> MeetsUncrossed(a, b)
  {
    SegmentTestExactIff(a, b);
    NamesMeetExact(a, b);
  }

  // ----- exactness for whole globs ------------------------------------------

  /** The walk asks its test only about segments of the two lists other than globstars. */
  lemma {:induction false} WalkAgrees(c: (string, string) -> bool, d: (string, string) -> bool, a: seq<string>,
      b: seq<string>)
    requires forall x, y :: x in a && y in b ==> (c(x, y) <==> d(x, y))
    ensures WalkWith(c, a, b) <==> WalkWith(d, a, b)
    decreases |a| + |b|
  {
    if a != [] && b != [] {
      WalkAgrees(c, d, a[1..], b);
      WalkAgrees(c, d, a, b[1..]);
      WalkAgrees(c, d, a[1..], b[1..]);
      assert a[0] in a && b[0] in b;
    }
  }

  lemma {:induction false} WalkSymmetric(c: (string, string) -> bool, a: seq<string>, b: seq<string>)
    requires forall x, y :: c(x, y) == c(y, x)
    ensures WalkWith(c, a, b) == WalkWith(c, b, a)
    decreases |a| + |b|
  {
    if a != [] && b != [] {
      WalkSymmetric(c, a[1..], b);
      WalkSymmetric(c, a, b[1..]);
      WalkSymmetric(c, a[1..], b[1..]);
    }
  }

  lemma OverlapSymmetric(a: string, b: string)
    ensures GlobsOverlap(a, b) == GlobsOverlap(b, a)
  {
    WalkSymmetric(SegmentsCompatible, Segments(a), Segments(b));
  }

  /** Some name of a class is accepted by both segments. */
  ghost predicate ShareNameIn(ok: string -> bool, a: string, b: string) {
    exists name: string :: IsName(name) && ok(name) && SegmentMatches(a, name) && SegmentMatches(b, name)
  }

  /**
    Every yes of the walk comes with a path both segment lists accept, if every
    yes of the segment test comes with a name; the path's names can be chosen
    from a class of names that has the placeholder forms.
   */
  lemma {:induction false} WalkSound(ok: string -> bool, c: (string, string) -> bool, a: seq<string>,
      b: seq<string>) returns (path: seq<string>)
    requires IsPath(a) && IsPath(b) && WalkWith(c, a, b)
    requires forall x, y :: x in a && y in b && x != "**" && y != "**" && c(x, y) ==> ShareNameIn(ok, x, y)
    requires forall x :: x in a || x in b ==> ok(Concrete(x))
    ensures IsPath(path) && MatchesSegments(a, path) && MatchesSegments(b, path)
    ensures forall i :: 0 <= i < |path| ==> ok(path[i])
    decreases |a| + |b|
  {
    if a == [] || b == [] {
      GlobstarsMatchEmpty(a);
      GlobstarsMatchEmpty(b);
      path := [];
    } else if a[0] == "**" {
      if WalkWith(c, a[1..], b) {
        path := WalkSound(ok, c, a[1..], b);
      } else {
        path := WalkSound(ok, c, a, b[1..]);
        assert b[0] in b;
        path := ConsumeOne(ok, a, b, path);
      }
    } else if b[0] == "**" {
      if WalkWith(c, a, b[1..]) {
        path := WalkSound(ok, c, a, b[1..]);
      } else {
        path := WalkSound(ok, c, a[1..], b);
        assert a[0] in a;
        path := ConsumeOne(ok, b, a, path);
      }
    } else {
      var rest := WalkSound(ok, c, a[1..], b[1..]);
      assert ShareNameIn(ok, a[0], b[0]);
      var name :| IsName(name) && ok(name) && SegmentMatches(a[0], name) && SegmentMatches(b[0], name);
      path := [name] + rest;
      assert path[1..] == rest;
    }
  }

  lemma GlobstarsMatchEmpty(a: seq<string>)
    ensures AllGlobstars(a) <==> MatchesSegments(a, [])
  {
  }

  /** A globstar absorbs one more path segment, chosen to fit the other side. */
  lemma ConsumeOne(ok: string -> bool, a: seq<string>, b: seq<string>, path: seq<string>) returns (longer: seq<string>)
    requires a != [] && b != [] && a[0] == "**" && IsPath(b) && IsPath(path) && ok(Concrete(b[0]))
    requires MatchesSegments(a, path) && MatchesSegments(b[1..], path) && forall i :: 0 <= i < |path| ==> ok(path[i])
    ensures IsPath(longer) && MatchesSegments(a, longer) && MatchesSegments(b, longer)
    ensures forall i :: 0 <= i < |longer| ==> ok(longer[i])
  {
    if b[0] == "**" {
      longer := path;
    } else {
      ConcreteMatches(b[0]);
      longer := [Concrete(b[0])] + path;
      assert longer[1..] == path;
    }
  }

  /** The walk finds every shared path, if the segment test misses no shared name of these lists. */
  lemma {:induction false} WalkComplete(c: (string, string) -> bool, a: seq<string>, b: seq<string>, path: seq<string>)
    requires IsPath(path) && MatchesSegments(a, path) && MatchesSegments(b, path)
    requires forall x, y :: x in a && y in b && x != "**" && y != "**" && ShareName(x, y) ==> c(x, y)
    ensures WalkWith(c, a, b)
    decreases |a| + |b| + |path|
  {
    if a == [] {
      GlobstarsMatchEmpty(b);
    } else if b == [] {
      GlobstarsMatchEmpty(a);
    } else if a[0] == "**" {
      if MatchesSegments(a[1..], path) {
        WalkComplete(c, a[1..], b, path);
      } else if b[0] == "**" && MatchesSegments(b[1..], path) {
        WalkComplete(c, a, b[1..], path);
      } else {
        WalkComplete(c, a, if b[0] == "**" then b else b[1..], path[1..]);
      }
    } else if b[0] == "**" {
      if MatchesSegments(b[1..], path) {
        WalkComplete(c, a, b[1..], path);
      } else {
        WalkComplete(c, a[1..], b, path[1..]);
      }
    } else {
      assert ShareName(a[0], b[0]);
      WalkComplete(c, a[1..], b[1..], path[1..]);
    }
  }

  /** Reported overlaps are real, for every pair of globs. */
  lemma OverlapSound(a: string, b: string)
    requires GlobsOverlap(a, b)
    ensures SharePath(a, b)
  {
    var sa, sb := Segments(a), Segments(b);
    var any := (name: string) => true;
    forall x, y | x in sa && y in sb && SegmentsCompatible(x, y) ensures ShareNameIn(any, x, y) {
      var name := CommonName(x, y);
      assert any(name);
    }
    var segs := WalkSound(any, SegmentsCompatible, sa, sb);
    SegmentsOfJoin(segs);
    assert GlobMatchesPath(a, Join(segs, '/')) && GlobMatchesPath(b, Join(segs, '/'));
  }

  /** Some segment of one glob is crossed with some segment of the other. */
  ghost predicate CrossedGlobs(a: string, b: string) {
    exists x, y :: x in Segments(a) && y in Segments(b) && Crossed(x, y)
  }

  /** A missed overlap always involves a crossed pair of segments, for every pair of globs. */
  lemma MissedOverlapIsCrossed(a: string, b: string, path: string)
    requires GlobMatchesPath(a, path) && GlobMatchesPath(b, path) && !GlobsOverlap(a, b)
    ensures CrossedGlobs(a, b)
  {
    var sa, sb := Segments(a), Segments(b);
    if !CrossedGlobs(a, b) {
      forall x, y | x in sa && y in sb && x != "**" && y != "**" && ShareName(x, y) ensures SegmentsCompatible(x, y) {
        if !SegmentsCompatible(x, y) { MissedOnlyIfCrossed(x, y); }
      }
      WalkComplete(SegmentsCompatible, sa, sb, Segments(path));
    }
  }

  /** The exact per-segment test: affixes for two patterns, plain matching when one side is literal. */
  predicate NamesMeet(a: string, b: string) {
    if '*' in a && '*' in b then AffixesAgree(a, b)
    else if '*' in b then SegmentMatches(b, a)
    else SegmentMatches(a, b)
  }

  /** The overlap decision with the exact per-segment test. */
  predicate ReferenceOverlap(a: string, b: string) {
    WalkWith(NamesMeet, Segments(a), Segments(b))
  }

  lemma NamesMeetExact(a: string, b: string)
    requires IsName(a) && IsName(b) && SingleLine(a) && SingleLine(b)
    ensures NamesMeet(a, b) <==> ShareName(a, b)
  {
    if '*' in a && '*' in b {
      if ShareName(a, b) {
        var s :| IsName(s) && SegmentMatches(a, s) && SegmentMatches(b, s);
        if a != "*" && b != "*" {
          AffixesNecessary(a, b, s);
        }
      }
    }
    if NamesMeet(a, b) { NamesMeetLine(a, b); }
  }

  lemma NamesMeetLine(a: string, b: string)
    requires IsName(a) && IsName(b) && SingleLine(a) && SingleLine(b) && NamesMeet(a, b)
    ensures ShareNameIn(SingleLine, a, b) && ShareName(a, b)
  {
    var name := if '*' in b then a else b;
    if '*' in a && '*' in b { name := CrossedShares(a, b); }
    assert IsName(name) && SingleLine(name) && SegmentMatches(a, name) && SegmentMatches(b, name);
  }

  /** A yes of the reference walk comes with a path on one line. */
  lemma ReferencePath(a: string, b: string) returns (path: string)
    requires SingleLine(a) && SingleLine(b) && ReferenceOverlap(a, b)
    ensures SingleLine(path) && GlobMatchesPath(a, path) && GlobMatchesPath(b, path)
  {
    var sa, sb := Segments(a), Segments(b);
    SegmentsSingleLine(a);
    SegmentsSingleLine(b);
    forall x, y | x in sa && y in sb && NamesMeet(x, y) ensures ShareNameIn(SingleLine, x, y) { NamesMeetLine(x, y); }
    forall x | x in sa || x in sb ensures SingleLine(Concrete(x)) { ConcreteSingleLine(x); }
    var segs := WalkSound(SingleLine, NamesMeet, sa, sb);
    SegmentsOfJoin(segs);
    JoinSingleLine(segs);
    path := Join(segs, '/');
  }

  lemma {:induction false} JoinSingleLine(parts: seq<string>)
    requires forall i :: 0 <= i < |parts| ==> SingleLine(parts[i])
    ensures SingleLine(Join(parts, '/'))
  {
    if |parts| > 1 { JoinSingleLine(parts[1..]); }
  }

  /** For single-line globs the reference walk decides path sharing exactly. */
  lemma ReferenceOverlapExact(a: string, b: string)
    requires SingleLine(a) && SingleLine(b)
    ensures ReferenceOverlap(a, b) <==> SharePath(a, b)
  {
    var sa, sb := Segments(a), Segments(b);
    SegmentsSingleLine(a);
    SegmentsSingleLine(b);
    forall x, y | x in sa && y in sb ensures NamesMeet(x, y) <==> ShareName(x, y) {
      NamesMeetExact(x, y);
    }
    if ReferenceOverlap(a, b) {
      var path := ReferencePath(a, b);
    }
    if SharePath(a, b) {
      var path :| GlobMatchesPath(a, path) && GlobMatchesPath(b, path);
      WalkComplete(NamesMeet, sa, sb, Segments(path));
    }
  }

  lemma SegmentsSingleLine(glob: string)
    requires SingleLine(glob)
    ensures forall s :: s in Segments(glob) ==> SingleLine(s)
  {
    SplitSingleLine(glob);
  }

  lemma {:induction false} SplitSingleLine(s: string)
    requires SingleLine(s)
    ensures forall i :: 0 <= i < |Split(s, '/')| ==> SingleLine(Split(s, '/')[i])
  {
    if s != [] {
      SplitSingleLine(s[1..]);
      var rest := Split(s[1..], '/');
      assert SingleLine(rest[0]);
    }
  }

  /** The walk over the exact test without crossed pairs. */
  predicate UncrossedOverlap(a: string, b: string) {
    WalkWith(MeetsUncrossed, Segments(a), Segments(b))
  }

  /** For single-line globs the code computes the walk over uncrossed pairs. */
  lemma OverlapIsUncrossed(a: string, b: string)
    requires SingleLine(a) && SingleLine(b)
    ensures GlobsOverlap(a, b) <==> UncrossedOverlap(a, b)
  {
    var sa, sb := Segments(a), Segments(b);
    SegmentsSingleLine(a);
    SegmentsSingleLine(b);
    forall x, y | x in sa && y in sb ensures SegmentsCompatible(x, y) <==> MeetsUncrossed(x, y) {
      CompatibleIsUncrossed(x, y);
    }
    WalkAgrees(SegmentsCompatible, MeetsUncrossed, sa, sb);
  }

  /** Some way to align the globs exists, but each needs a crossed pair. */
  predicate NeedsCrossing(a: string, b: string) {
    ReferenceOverlap(a, b) && !UncrossedOverlap(a, b)
  }

  /** The overlap test is right about a pair of single-line globs exactly when aligning them needs no crossed pair. */
  lemma OverlapExactIff(a: string, b: string)
    requires SingleLine(a) && SingleLine(b)
    ensures (GlobsOverlap(a, b) <==> SharePath(a, b)) <==> !NeedsCrossing(a, b)
  {
    ReferenceOverlapExact(a, b);
    OverlapIsUncrossed(a, b);
    if GlobsOverlap(a, b) { OverlapSound(a, b); }
  }

  // ----- paths on one line --------------------------------------------------

  ghost predicate ShareLine(a: string, b: string) {
    exists path: string :: '\n' !in path && GlobMatchesPath(a, path) && GlobMatchesPath(b, path)
  }

  /** For single-line globs a shared path can be chosen on one line. */
  lemma ShareLineIff(a: string, b: string)
    requires SingleLine(a) && SingleLine(b)
    ensures ShareLine(a, b) <==> ReferenceOverlap(a, b)
  {
    ReferenceOverlapExact(a, b);
    if ReferenceOverlap(a, b) {
      var path := ReferencePath(a, b);
      assert '\n' !in path;
    }
    if ShareLine(a, b) {
      var path :| '\n' !in path && GlobMatchesPath(a, path) && GlobMatchesPath(b, path);
      assert SharePath(a, b);
    }
  }

  /** Every character of a pattern other than a star is in what it accepts. */
  lemma {:induction false} MatchKeeps(c: char, pat: string, s: string)
    requires c != '*' && c in pat && WildMatch(pat, s)
    ensures c in s
    decreases |pat| + |s|
  {
    if pat[0] == '*' && !WildMatch(pat[1..], s) {
      MatchKeeps(c, pat, s[1..]);
    } else if pat[0] != c {
      MatchKeeps(c, pat[1..], if pat[0] == '*' then s else s[1..]);
    }
  }

  lemma {:induction false} SegmentsKeep(c: char, glob: seq<string>, path: seq<string>, k: nat) returns (j: nat)
    requires c != '*' && k < |glob| && c in glob[k] && MatchesSegments(glob, path)
    ensures j < |path| && c in path[j]
    decreases |glob| + |path|
  {
    if glob[0] == "**" && !MatchesSegments(glob[1..], path) {
      j := SegmentsKeep(c, glob, path[1..], k);
      j := j + 1;
    } else if k == 0 {
      if '*' in glob[0] { MatchKeeps(c, glob[0], path[0]); }
      j := 0;
    } else {
      j := SegmentsKeep(c, glob[1..], if glob[0] == "**" then path else path[1..], k - 1);
      if glob[0] != "**" { j := j + 1; }
    }
  }

  /** A glob accepts some path without line feeds exactly when it has none itself. */
  lemma MatchesLineIff(glob: string)
    ensures ShareLine(glob, glob) <==> '\n' !in glob
  {
    var segs := Segments(glob);
    if '\n' in glob {
      var k := SegmentWith('\n', glob);
      forall path | GlobMatchesPath(glob, path) ensures '\n' in path {
        var j := SegmentsKeep('\n', segs, Segments(path), k);
        SegmentCharacters(path, j);
      }
    } else {
      forall i | 0 <= i < |segs| ensures '\n' !in segs[i] { SegmentCharacters(glob, i); }
      var path := OwnPath(segs);
      SegmentsOfJoin(path);
      JoinAvoids('\n', path);
      assert GlobMatchesPath(glob, Join(path, '/'));
    }
  }

  lemma SegmentCharacters(glob: string, i: nat)
    requires i < |Segments(glob)|
    ensures forall c :: c in Segments(glob)[i] ==> c in glob
  {
    assert Segments(glob)[i] in NonEmpty(Split(glob, '/'));
    SplitCharacters(glob, '/');
  }

  lemma {:induction false} SplitCharacters(s: string, sep: char)
    ensures forall part, c :: part in Split(s, sep) && c in part ==> c in s
  {
    if s != [] { SplitCharacters(s[1..], sep); }
  }

  lemma SegmentWith(c: char, glob: string) returns (k: nat)
    requires c != '/' && c in glob
    ensures k < |Segments(glob)| && c in Segments(glob)[k]
  {
    var i :| 0 <= i < |glob| && glob[i] == c;
    SplitKeeps(glob, '/', i);
    var j :| 0 <= j < |Split(glob, '/')| && c in Split(glob, '/')[j];
    NonEmptyKeeps(Split(glob, '/'), j);
    k :| 0 <= k < |Segments(glob)| && Segments(glob)[k] == Split(glob, '/')[j];
  }

  lemma {:induction false} NonEmptyKeeps(parts: seq<string>, j: nat)
    requires j < |parts| && parts[j] != []
    ensures parts[j] in NonEmpty(parts)
  {
    if j > 0 { NonEmptyKeeps(parts[1..], j - 1); }
  }

  /** A path for one glob: each segment with its stars filled in, globstars empty. */
  lemma {:induction false} OwnPath(glob: seq<string>) returns (path: seq<string>)
    requires IsPath(glob) && forall i :: 0 <= i < |glob| ==> '\n' !in glob[i]
    ensures IsPath(path) && MatchesSegments(glob, path) && forall i :: 0 <= i < |path| ==> '\n' !in path[i]
  {
    if glob == [] {
      path := [];
    } else {
      var rest := OwnPath(glob[1..]);
      if glob[0] == "**" {
        path := rest;
      } else {
        ConcreteMatches(glob[0]);
        ConcreteAvoids('\n', glob[0]);
        path := [Concrete(glob[0])] + rest;
        assert path[1..] == rest;
      }
    }
  }

  lemma {:induction false} ConcreteAvoids(c: char, pat: string)
    requires c != 'X' && c !in pat
    ensures c !in Concrete(pat)
  {
    if pat != [] { ConcreteAvoids(c, pat[1..]); }
  }

  lemma {:induction false} JoinAvoids(c: char, parts: seq<string>)
    requires c != '/' && forall i :: 0 <= i < |parts| ==> c !in parts[i]
    ensures c !in Join(parts, '/')
  {
    if |parts| > 1 { JoinAvoids(c, parts[1..]); }
  }

  // ----- the exact fragment and the family outside it -----------------------

  /** A literal, or a star followed by a literal: `name`, `*`, `*.ts`; `**` is handled by the walk. */
  predicate SimpleSegment(s: string) {
    s == "**" || '*' !in s || (s[0] == '*' && '*' !in s[1..] && SingleLine(s))
  }

  predicate SimpleGlob(glob: string) {
    forall i :: 0 <= i < |Segments(glob)| ==> SimpleSegment(Segments(glob)[i])
  }

  lemma SimpleNotCrossed(a: string, b: string)
    requires SimpleSegment(a) && SimpleSegment(b)
    ensures !Crossed(a, b)
  {
    if Crossed(a, b) {
      SuffixShape(a);
      SuffixShape(b);
      if EndsWith(Tail(a), Tail(b)) {
        SuffixAcceptsLonger(a, b);
      } else {
        SuffixAcceptsLonger(b, a);
      }
    }
  }

  lemma SuffixShape(s: string)
    requires SimpleSegment(s) && '*' in s && s != "**"
    ensures Tail(s) == s[1..] && s == "*" + Tail(s)
  {
    LastStarUnique(s, 0);
  }

  lemma SuffixAcceptsLonger(long: string, short: string)
    requires SingleLine(long) && '*' in long && '*' in short
    requires long == "*" + Tail(long) && short == "*" + Tail(short)
    requires EndsWith(Tail(long), Tail(short))
    ensures WildMatch(short, Concrete(long))
  {
    PlaceholderEnds(Tail(long), Tail(short));
  }

  lemma PlaceholderEnds(long: string, short: string)
    requires SingleLine("*" + long) && '*' !in long && '*' !in short && EndsWith(long, short)
    ensures WildMatch("*" + short, Concrete("*" + long))
  {
    ConcreteAffix(long);
    ConcreteSingleLine("*" + long);
    assert EndsWith("X" + long, short);
    SuffixPattern(short, "X" + long);
  }

  lemma SuffixPattern(s: string, name: string)
    requires '*' !in s && SingleLine(name)
    ensures WildMatch("*" + s, name) <==> EndsWith(name, s)
  {
    if WildMatch("*" + s, name) { SuffixAccepts(s, name); }
    if EndsWith(name, s) {
      var x := name[..|name| - |s|];
      StarMatches(x);
      LiteralMatch(s, s);
      MatchConcat("*", s, x, s);
      assert name == x + s;
    }
  }

  lemma SuffixAccepts(s: string, name: string)
    requires '*' !in s && WildMatch("*" + s, name)
    ensures EndsWith(name, s)
  {
    var pat := "*" + s;
    assert pat[1..] == s;
    LastStarUnique(pat, 0);
    TailIsSuffix(pat, name);
  }

  lemma PrefixPattern(p: string, name: string)
    requires '*' !in p && SingleLine(name)
    ensures WildMatch(p + "*", name) <==> p <= name
  {
    if WildMatch(p + "*", name) {
      FirstStarOfPrefix(p);
      HeadIsPrefix(p + "*", name);
    }
    if p <= name {
      var x := name[|p|..];
      StarMatches(x);
      LiteralMatch(p, p);
      MatchConcat(p, "*", p, x);
      assert name == p + x;
    }
  }

  lemma FirstStarOfPrefix(p: string)
    requires '*' !in p
    ensures '*' in p + "*" && Head(p + "*") == p && Tail(p + "*") == []
  {
    var pat := p + "*";
    assert pat[|p|] == '*';
    assert forall k :: 0 <= k < |p| ==> pat[k] == p[k];
    LastStarUnique(pat, |p|);
    assert FirstStar(pat) == |p|;
  }

  /** On simple globs the overlap test is exact. */
  lemma SimpleOverlapExact(a: string, b: string)
    requires SimpleGlob(a) && SimpleGlob(b)
    ensures GlobsOverlap(a, b) <==> SharePath(a, b)
    ensures !CrossedGlobs(a, b)
  {
    if CrossedGlobs(a, b) {
      var x, y :| x in Segments(a) && y in Segments(b) && Crossed(x, y);
      SimpleNotCrossed(x, y);
    }
    if GlobsOverlap(a, b) { OverlapSound(a, b); }
    if SharePath(a, b) && !GlobsOverlap(a, b) {
      var path :| GlobMatchesPath(a, path) && GlobMatchesPath(b, path);
      MissedOverlapIsCrossed(a, b, path);
    }
  }

  /**
    A prefix shape against a suffix shape is missed unless the placeholder `X`
    happens to fit; every such pair shares the name prefix + suffix.
   */
  lemma PrefixAgainstSuffix(p: string, s: string)
    requires p != [] && s != [] && '*' !in p && '*' !in s && SingleLine(p) && SingleLine(s)
    ensures Crossed(p + "*", "*" + s) <==> !(p <= "X" + s) && !EndsWith(p + "X", s)
    ensures SegmentMatches(p + "*", p + s) && SegmentMatches("*" + s, p + s)
  {
    var a, b := p + "*", "*" + s;
    PrefixSuffixAgree(p, s);
    PrefixPattern(p, p + s);
    SuffixPattern(s, p + s);
    PlaceholderForms(p, s);
    NotStars(p, s);
  }

  lemma NotStars(p: string, s: string)
    requires p != [] && s != [] && '*' !in p && '*' !in s
    ensures p + "*" != "*" + s && p + "*" != "*" && p + "*" != "**" && "*" + s != "*" && "*" + s != "**"
  {
    assert (p + "*")[0] == p[0] && ("*" + s)[1] == s[0];
  }

  lemma PrefixSuffixAgree(p: string, s: string)
    requires '*' !in p && '*' !in s
    ensures '*' in p + "*" && '*' in "*" + s && AffixesAgree(p + "*", "*" + s)
  {
    var b := "*" + s;
    FirstStarOfPrefix(p);
    assert b[0] == '*' && b[1..] == s;
    LastStarUnique(b, 0);
    assert Head(b) == [];
  }

  lemma PlaceholderForms(p: string, s: string)
    requires '*' !in p && '*' !in s && SingleLine(p) && SingleLine(s)
    ensures WildMatch(p + "*", Concrete("*" + s)) <==> p <= "X" + s
    ensures WildMatch("*" + s, Concrete(p + "*")) <==> EndsWith(p + "X", s)
  {
    ConcreteAffix(s);
    ConcretePrefix(p);
    PrefixPattern(p, "X" + s);
    SuffixPattern(s, p + "X");
  }

  lemma ConcreteAffix(s: string)
    requires '*' !in s
    ensures Concrete("*" + s) == "X" + s
  {
    ConcreteMatches(s);
    assert ("*" + s)[1..] == s;
  }

  lemma {:induction false} ConcretePrefix(p: string)
    requires '*' !in p
    ensures Concrete(p + "*") == p + "X"
  {
    if p == [] {
      assert p + "*" == "*";
      assert Concrete("*") == "X" + Concrete("*"[1..]);
    } else {
      assert (p + "*")[1..] == p[1..] + "*";
      ConcretePrefix(p[1..]);
    }
  }

  /** The header's promise fails: both globs accept `foo.ts`, yet no overlap is reported. */
  lemma HeaderPromiseFails() returns (a: string, b: string, path: string)
    ensures a == "foo*" && b == "*.ts" && path == "foo.ts"
    ensures !GlobsOverlap(a, b) && GlobMatchesPath(a, path) && GlobMatchesPath(b, path)
  {
    var p, s := "foo", ".ts";
    a, b, path := p + "*", "*" + s, p + s;
    assert p[0] == 'f' && s[2] == 's';
    MissedPair(p, s);
  }

  lemma MissedPair(p: string, s: string)
    requires IsName(p) && IsName(s) && '*' !in p && '*' !in s && SingleLine(p) && SingleLine(s)
    requires p[0] != 'X' && s[|s| - 1] != 'X'
    ensures !GlobsOverlap(p + "*", "*" + s) && GlobMatchesPath(p + "*", p + s) && GlobMatchesPath("*" + s, p + s)
  {
    PrefixAgainstSuffix(p, s);
    assert ("X" + s)[0] == 'X' && (p + "X")[|p|] == 'X';
    OneSegment(p + "*");
    OneSegment("*" + s);
    OneSegment(p + s);
  }

  lemma OneSegment(s: string)
    requires IsName(s)
    ensures Segments(s) == [s]
  {
    SegmentsOfJoin([s]);
  }
}
