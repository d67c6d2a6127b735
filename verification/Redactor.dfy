/**
  packages/shared/src/redactor.ts, exact-value part: windows whose digest is
  registered are collected, sorted, merged and replaced by markers.

  SHA-256 is a function parameter; nothing is assumed about it.
 */
module Redactor {
  import opened Text

  datatype Span = Span(start: nat, end: nat, tag: string)

  type Hash = string -> string

  /** Registered digests with the length of the value each was computed from. */
  type Registry = map<string, nat>

  function Take(s: string, n: nat): string {
    if |s| <= n then s else s[..n]
  }

  function Label(digest: string): string {
    "value:" + Take(digest, 8)
  }

  /** A window of a registered length whose digest is registered, with its label. */
  predicate Hit(h: Hash, reg: Registry, text: string, s: Span) {
    && s.start <= s.end <= |text| && s.end - s.start in reg.Values
    && h(text[s.start..s.end]) in reg && s.tag == Label(h(text[s.start..s.end]))
  }

  /** Start ascending, then end descending. */
  predicate Before(a: Span, b: Span) {
    a.start < b.start || (a.start == b.start && a.end >= b.end)
  }

  ghost predicate Sorted(spans: seq<Span>) {
    forall i, j :: 0 <= i < j < |spans| ==> Before(spans[i], spans[j])
  }

  function Insert(s: Span, spans: seq<Span>): (r: seq<Span>)
    ensures |r| == |spans| + 1
  {
    if spans == [] || Before(s, spans[0]) then [s] + spans else [spans[0]] + Insert(s, spans[1..])
  }

  function Sort(spans: seq<Span>): seq<Span> {
    if spans == [] then [] else Insert(spans[0], Sort(spans[1..]))
  }

  // ----- merged spans -------------------------------------------------------

  /** Non-degenerate order: each span ends strictly before the next one starts. */
  ghost predicate Separated(spans: seq<Span>) {
    && (forall k :: 0 <= k < |spans| ==> spans[k].start <= spans[k].end)
    && (forall i, j :: 0 <= i < j < |spans| ==> spans[i].end < spans[j].start)
  }

  predicate Covers(spans: seq<Span>, p: nat) {
    exists k :: 0 <= k < |spans| && spans[k].start <= p < spans[k].end
  }

  predicate Inside(s: Span, spans: seq<Span>) {
    exists k :: 0 <= k < |spans| && spans[k].start <= s.start && s.end <= spans[k].end
  }

  /** One round of the merge loop. */
  function Absorb(merged: seq<Span>, s: Span): seq<Span> {
    if merged != [] && s.start <= merged[|merged| - 1].end then
      var prev := merged[|merged| - 1];
      if s.end > prev.end then merged[..|merged| - 1] + [prev.(end := s.end)] else merged
    else merged + [s]
  }

  /** What the merge loop has established after the first `n` spans. */
  ghost predicate MergedSoFar(spans: seq<Span>, n: nat, merged: seq<Span>)
    requires n <= |spans|
  {
    && Separated(merged)
    && (forall p: nat :: Covers(merged, p) <==> Covers(spans[..n], p))
    && (forall i :: 0 <= i < n ==> Inside(spans[i], merged))
    && (forall k :: 0 <= k < |merged| ==> Leads(spans[..n], merged[k]))
    && (merged == [] <==> n == 0)
  }

  /** The merged span starts with an input span, carries its label, and no earlier input starts there. */
  predicate Leads(spans: seq<Span>, m: Span) {
    exists i :: 0 <= i < |spans| && spans[i].start == m.start && spans[i].tag == m.tag &&
      forall j :: 0 <= j < i ==> spans[j].start != m.start
  }

  // ----- output -------------------------------------------------------------

  function Marker(tag: string): string {
    "<REDACTED:" + tag + ">"
  }

  /** What a masked secret looks like: the first eight characters of its digest between fixed texts. */
  lemma MarkerIs(digest: string)
    ensures Marker(Label(digest)) == "<REDACTED:value:" + (if |digest| < 8 then digest else digest[..8]) + ">"
  {
    var d := if |digest| < 8 then digest else digest[..8];
    assert "<REDACTED:" + ("value:" + d) + ">" == "<REDACTED:value:" + d + ">";
  }

  /** Where the text resumes after the first `n` spans. */
  function Cursor(spans: seq<Span>, n: nat): nat
    requires n <= |spans|
  {
    if n == 0 then 0 else spans[n - 1].end
  }

  ghost predicate Fits(spans: seq<Span>, text: string) {
    Separated(spans) && forall k :: 0 <= k < |spans| ==> spans[k].end <= |text|
  }

  /** The unmasked piece before the `k`-th span. */
  function Gap(text: string, spans: seq<Span>, k: nat): string
    requires k <= |spans| && Fits(spans, text)
  {
    text[Cursor(spans, k)..if k < |spans| then spans[k].start else |text|]
  }

  function RenderUpTo(text: string, spans: seq<Span>, n: nat): string
    requires n <= |spans| && Fits(spans, text)
  {
    if n == 0 then "" else RenderUpTo(text, spans, n - 1) + Gap(text, spans, n - 1) + Marker(spans[n - 1].tag)
  }

  /** Gaps and markers alternating. */
  function Render(text: string, spans: seq<Span>): string
    requires Fits(spans, text)
  {
    RenderUpTo(text, spans, |spans|) + Gap(text, spans, |spans|)
  }

  /** Position `p` lies in a window whose digest is registered. */
  ghost predicate HitAt(h: Hash, reg: Registry, text: string, p: nat) {
    exists s :: Hit(h, reg, text, s) && s.start <= p < s.end
  }

  /** `out` is `text` with exactly the union of all hits masked, maximal runs by one marker each. */
  ghost predicate Redaction(h: Hash, reg: Registry, text: string, merged: seq<Span>, out: string) {
    && Fits(merged, text)
    && (forall p: nat :: Covers(merged, p) <==> HitAt(h, reg, text, p))
    && (forall s :: Hit(h, reg, text, s) ==> Inside(s, merged))
    && (forall k :: 0 <= k < |merged| ==> LongestHit(h, reg, text, merged[k]))
    && out == Render(text, merged)
  }

  /** The label is that of the longest hit starting where the masked run starts. */
  ghost predicate LongestHit(h: Hash, reg: Registry, text: string, m: Span) {
    exists s :: Hit(h, reg, text, s) && s.start == m.start && s.tag == m.tag &&
      forall t :: Hit(h, reg, text, t) && t.start == m.start ==> t.end <= s.end
  }

  // ----- the redactor as the source runs it ---------------------------------

  class Redactor {
    const hash: Hash
    const minRegisterLength: nat
    var registered: Registry

    constructor (hash: Hash, minRegisterLength: nat)
      ensures this.hash == hash && this.minRegisterLength == minRegisterLength && registered == map[]
    {
      this.hash, this.minRegisterLength, registered := hash, minRegisterLength, map[];
    }

    /** Refuses short secrets; otherwise only the digest and the length are kept. */
    method Register(secret: string) returns (ok: bool)
      modifies this`registered
      ensures ok <==> |secret| >= minRegisterLength
      ensures registered == if ok then old(registered)[hash(secret) := |secret|] else old(registered)
    {
      if |secret| < minRegisterLength { return false; }
      registered := registered[hash(secret) := |secret|];
      return true;
    }

    method CollectSpans(text: string) returns (spans: seq<Span>)
      ensures forall s :: s in spans <==> Hit(hash, registered, text, s)
    {
      spans := [];
      var lengths := registered.Values;
      ghost var done: set<nat> := {};
      while lengths != {}
        invariant done + lengths == registered.Values && done !! lengths
        invariant forall s :: s in spans <==> Hit(hash, registered, text, s) && s.end - s.start in done
        decreases lengths
      {
        var len :| len in lengths;
        lengths := lengths - {len};
        if len <= |text| {
          var i := 0;
          ghost var before := spans;
          while i <= |text| - len
            invariant 0 <= i <= |text| - len + 1
            invariant forall s :: s in spans <==>
              s in before || (Hit(hash, registered, text, s) && s.end - s.start == len && s.start < i)
          {
            var digest := hash(text[i..i + len]);
            if digest in registered { spans := spans + [Span(i, i + len, Label(digest))]; }
            i := i + 1;
          }
        }
        done := done + {len};
      }
    }

    /** Masks every registered value. */
    method MaskRegisteredValues(text: string) returns (out: string)
      ensures exists merged :: Redaction(hash, registered, text, merged, out)
    {
      var spans := CollectSpans(text);
      var sorted := Sort(spans);
      SortIs(spans);
      assert forall i :: 0 <= i < |sorted| ==> sorted[i] in sorted;
      var merged := MergeSpans(sorted);
      MergedIsRedaction(hash, registered, text, sorted, merged);
      out := Splice(text, merged);
    }
  }

  method MergeSpans(spans: seq<Span>) returns (merged: seq<Span>)
    requires Sorted(spans) && forall i :: 0 <= i < |spans| ==> spans[i].start <= spans[i].end
    ensures MergedSoFar(spans, |spans|, merged)
  {
    merged := [];
    NothingMerged(spans);
    for i := 0 to |spans|
      invariant MergedSoFar(spans, i, merged)
    {
      ghost var next := Absorb(merged, spans[i]);
      AbsorbKeeps(spans, i, merged);
      var s := spans[i];
      if |merged| > 0 && s.start <= merged[|merged| - 1].end {
        var prev := merged[|merged| - 1];
        if s.end > prev.end { merged := merged[..|merged| - 1] + [prev.(end := s.end)]; }
      } else {
        merged := merged + [s];
      }
      assert merged == next;
    }
  }

  lemma NothingMerged(spans: seq<Span>)
    ensures MergedSoFar(spans, 0, [])
  {
  }

  method Splice(text: string, merged: seq<Span>) returns (out: string)
    requires Fits(merged, text)
    ensures out == Render(text, merged)
  {
    out := "";
    var cursor := 0;
    for i := 0 to |merged|
      invariant cursor == Cursor(merged, i) && out == RenderUpTo(text, merged, i)
    {
      out := out + text[cursor..merged[i].start];
      out := out + Marker(merged[i].tag);
      cursor := merged[i].end;
    }
    out := out + text[cursor..];
  }

  // ----- sorting ------------------------------------------------------------

  lemma {:induction false} InsertIs(s: Span, spans: seq<Span>)
    requires Sorted(spans)
    ensures Sorted(Insert(s, spans))
    ensures forall t :: t in Insert(s, spans) <==> t == s || t in spans
  {
    if spans != [] {
      var rest := spans[1..];
      assert spans == [spans[0]] + rest;
      InsertIs(s, rest);
      if !Before(s, spans[0]) {
        forall k | 0 <= k < |Insert(s, rest)| ensures Before(spans[0], Insert(s, rest)[k]) {
          assert Insert(s, rest)[k] in Insert(s, rest);
          if Insert(s, rest)[k] != s {
            var q :| 0 <= q < |rest| && rest[q] == Insert(s, rest)[k];
            assert rest[q] == spans[q + 1];
          }
        }
      }
    }
  }

  lemma {:induction false} SortIs(spans: seq<Span>)
    ensures Sorted(Sort(spans))
    ensures forall t :: t in Sort(spans) <==> t in spans
  {
    if spans != [] {
      SortIs(spans[1..]);
      InsertIs(spans[0], Sort(spans[1..]));
      assert spans == [spans[0]] + spans[1..];
    }
  }

  // ----- merging ------------------------------------------------------------

  lemma CoversSnoc(spans: seq<Span>, s: Span, p: nat)
    ensures Covers(spans + [s], p) <==> Covers(spans, p) || s.start <= p < s.end
  {
    var longer := spans + [s];
    if Covers(longer, p) {
      var k :| 0 <= k < |longer| && longer[k].start <= p < longer[k].end;
      assert k < |spans| ==> spans[k] == longer[k];
    }
    if Covers(spans, p) {
      var k :| 0 <= k < |spans| && spans[k].start <= p < spans[k].end;
      assert longer[k] == spans[k];
    }
    assert longer[|spans|] == s;
  }

  /** The last merged span reaches back to the start of its group: nothing merged starts after an unread span. */
  lemma MergedStartsBefore(spans: seq<Span>, n: nat, merged: seq<Span>)
    requires Sorted(spans) && n < |spans| && MergedSoFar(spans, n, merged)
    ensures forall k :: 0 <= k < |merged| ==> merged[k].start <= spans[n].start
  {
    forall k | 0 <= k < |merged| ensures merged[k].start <= spans[n].start {
      assert Leads(spans[..n], merged[k]);
      var i :| 0 <= i < n && spans[..n][i].start == merged[k].start;
      assert Before(spans[i], spans[n]);
    }
  }

  lemma LeadsStays(spans: seq<Span>, n: nat, m: Span)
    requires n < |spans| && Leads(spans[..n], m)
    ensures Leads(spans[..n + 1], m)
  {
    var a, b := spans[..n], spans[..n + 1];
    var i :| 0 <= i < |a| && a[i].start == m.start && a[i].tag == m.tag && forall j :: 0 <= j < i ==>
      a[j].start != m.start;
    assert b[i] == a[i] && forall j :: 0 <= j < i ==> b[j] == a[j];
  }

  lemma AbsorbSeparated(merged: seq<Span>, s: Span)
    requires Separated(merged) && s.start <= s.end && forall k :: 0 <= k < |merged| ==> merged[k].start <= s.start
    ensures Separated(Absorb(merged, s))
  {
  }

  lemma AbsorbCovers(merged: seq<Span>, s: Span, p: nat)
    requires Separated(merged) && s.start <= s.end && forall k :: 0 <= k < |merged| ==> merged[k].start <= s.start
    ensures Covers(Absorb(merged, s), p) <==> Covers(merged, p) || s.start <= p < s.end
  {
    if merged != [] && s.start <= merged[|merged| - 1].end {
      var front, prev := merged[..|merged| - 1], merged[|merged| - 1];
      assert merged == front + [prev];
      CoversSnoc(front, prev, p);
      CoversSnoc(front, prev.(end := s.end), p);
    } else {
      CoversSnoc(merged, s, p);
    }
  }

  lemma AbsorbInside(merged: seq<Span>, s: Span, t: Span)
    requires s.start <= s.end && forall k :: 0 <= k < |merged| ==> merged[k].start <= s.start
    requires Inside(t, merged) || t == s
    ensures Inside(t, Absorb(merged, s))
  {
    var r := Absorb(merged, s);
    if t == s {
      assert r[|r| - 1].start <= s.start && s.end <= r[|r| - 1].end;
    } else {
      var k :| 0 <= k < |merged| && merged[k].start <= t.start && t.end <= merged[k].end;
      assert r[k].start <= t.start && t.end <= r[k].end;
    }
  }

  lemma AbsorbLeads(spans: seq<Span>, n: nat, merged: seq<Span>, k: nat)
    requires n < |spans| && MergedSoFar(spans, n, merged) && k < |Absorb(merged, spans[n])|
    requires forall i :: 0 <= i < |spans| ==> spans[i].start <= spans[i].end
    ensures Leads(spans[..n + 1], Absorb(merged, spans[n])[k])
  {
    var r, s := Absorb(merged, spans[n]), spans[n];
    if k < |merged| {
      LeadsStays(spans, n, merged[k]);
      assert r[k].start == merged[k].start && r[k].tag == merged[k].tag;
      LeadsSame(spans[..n + 1], merged[k], r[k]);
    } else {
      FreshLeads(spans, n, merged);
    }
  }

  lemma LeadsSame(spans: seq<Span>, m: Span, m': Span)
    requires Leads(spans, m) && m'.start == m.start && m'.tag == m.tag
    ensures Leads(spans, m')
  {
  }

  /** A span that opens a new run starts beyond everything read before it. */
  lemma FreshLeads(spans: seq<Span>, n: nat, merged: seq<Span>)
    requires n < |spans| && Separated(merged) && (forall i :: 0 <= i < n ==> Inside(spans[i], merged))
    requires forall i :: 0 <= i < |spans| ==> spans[i].start <= spans[i].end
    requires merged != [] ==> merged[|merged| - 1].end < spans[n].start
    ensures Leads(spans[..n + 1], spans[n])
  {
    var upTo := spans[..n + 1];
    forall j | 0 <= j < n ensures upTo[j].start != spans[n].start {
      assert upTo[j] == spans[j] && Inside(spans[j], merged);
      var q :| 0 <= q < |merged| && merged[q].start <= spans[j].start && spans[j].end <= merged[q].end;
      assert merged[q].end <= merged[|merged| - 1].end;
    }
    assert upTo[n] == spans[n];
  }

  lemma AbsorbKeepsCover(spans: seq<Span>, n: nat, merged: seq<Span>)
    requires n < |spans| && spans[n].start <= spans[n].end && Separated(merged)
    requires forall k :: 0 <= k < |merged| ==> merged[k].start <= spans[n].start
    requires forall p: nat :: Covers(merged, p) <==> Covers(spans[..n], p)
    ensures forall p: nat :: Covers(Absorb(merged, spans[n]), p) <==> Covers(spans[..n + 1], p)
  {
    assert spans[..n + 1] == spans[..n] + [spans[n]];
    forall p: nat ensures Covers(Absorb(merged, spans[n]), p) <==> Covers(spans[..n + 1], p) {
      AbsorbCovers(merged, spans[n], p);
      CoversSnoc(spans[..n], spans[n], p);
    }
  }

  lemma AbsorbKeepsInside(spans: seq<Span>, n: nat, merged: seq<Span>)
    requires n < |spans| && spans[n].start <= spans[n].end
    requires forall k :: 0 <= k < |merged| ==> merged[k].start <= spans[n].start
    requires forall i :: 0 <= i < n ==> Inside(spans[i], merged)
    ensures forall i :: 0 <= i < n + 1 ==> Inside(spans[i], Absorb(merged, spans[n]))
  {
    forall i | 0 <= i < n + 1 ensures Inside(spans[i], Absorb(merged, spans[n])) {
      AbsorbInside(merged, spans[n], spans[i]);
    }
  }

  lemma AbsorbKeepsLeads(spans: seq<Span>, n: nat, merged: seq<Span>)
    requires n < |spans| && MergedSoFar(spans, n, merged)
    requires forall i :: 0 <= i < |spans| ==> spans[i].start <= spans[i].end
    ensures forall k :: 0 <= k < |Absorb(merged, spans[n])| ==> Leads(spans[..n + 1], Absorb(merged, spans[n])[k])
  {
    forall k | 0 <= k < |Absorb(merged, spans[n])| ensures Leads(spans[..n + 1], Absorb(merged, spans[n])[k]) {
      AbsorbLeads(spans, n, merged, k);
    }
  }

  lemma AbsorbKeeps(spans: seq<Span>, n: nat, merged: seq<Span>)
    requires Sorted(spans) && n < |spans| && MergedSoFar(spans, n, merged)
    requires forall i :: 0 <= i < |spans| ==> spans[i].start <= spans[i].end
    ensures MergedSoFar(spans, n + 1, Absorb(merged, spans[n]))
  {
    MergedStartsBefore(spans, n, merged);
    AbsorbSeparated(merged, spans[n]);
    AbsorbKeepsCover(spans, n, merged);
    AbsorbKeepsInside(spans, n, merged);
    AbsorbKeepsLeads(spans, n, merged);
  }

  // ----- from the merge to the promise --------------------------------------

  lemma CoversIsHit(h: Hash, reg: Registry, text: string, sorted: seq<Span>, p: nat)
    requires forall s :: s in sorted <==> Hit(h, reg, text, s)
    ensures Covers(sorted, p) <==> HitAt(h, reg, text, p)
  {
    if Covers(sorted, p) {
      var k :| 0 <= k < |sorted| && sorted[k].start <= p < sorted[k].end;
      assert sorted[k] in sorted;
    }
    if s :| Hit(h, reg, text, s) && s.start <= p < s.end {
      var k :| 0 <= k < |sorted| && sorted[k] == s;
    }
  }

  lemma HitsInside(h: Hash, reg: Registry, text: string, sorted: seq<Span>, merged: seq<Span>)
    requires forall s :: s in sorted <==> Hit(h, reg, text, s)
    requires forall i :: 0 <= i < |sorted| ==> Inside(sorted[i], merged)
    ensures forall s :: Hit(h, reg, text, s) ==> Inside(s, merged)
  {
    forall s | Hit(h, reg, text, s) ensures Inside(s, merged) {
      var k :| 0 <= k < |sorted| && sorted[k] == s;
    }
  }

  lemma MergedCover(h: Hash, reg: Registry, text: string, sorted: seq<Span>, merged: seq<Span>)
    requires forall s :: s in sorted <==> Hit(h, reg, text, s)
    requires forall p: nat :: Covers(merged, p) <==> Covers(sorted, p)
    ensures forall p: nat :: Covers(merged, p) <==> HitAt(h, reg, text, p)
  {
    forall p: nat ensures Covers(merged, p) <==> HitAt(h, reg, text, p) { CoversIsHit(h, reg, text, sorted, p); }
  }

  lemma MergedLongest(h: Hash, reg: Registry, text: string, sorted: seq<Span>, merged: seq<Span>)
    requires Sorted(sorted) && forall s :: s in sorted <==> Hit(h, reg, text, s)
    requires forall k :: 0 <= k < |merged| ==> Leads(sorted, merged[k])
    ensures forall k :: 0 <= k < |merged| ==> LongestHit(h, reg, text, merged[k])
  {
    forall k | 0 <= k < |merged| ensures LongestHit(h, reg, text, merged[k]) {
      LeaderIsLongest(h, reg, text, sorted, merged[k]);
    }
  }

  lemma HitsFitText(h: Hash, reg: Registry, text: string, sorted: seq<Span>, merged: seq<Span>)
    requires forall s :: s in sorted <==> Hit(h, reg, text, s)
    requires MergedSoFar(sorted, |sorted|, merged)
    ensures Fits(merged, text)
  {
    assert forall i :: 0 <= i < |sorted| ==> sorted[i] in sorted;
    MergedFits(text, sorted, merged);
  }

  lemma MergedIsRedaction(h: Hash, reg: Registry, text: string, sorted: seq<Span>, merged: seq<Span>)
    requires Sorted(sorted) && forall s :: s in sorted <==> Hit(h, reg, text, s)
    requires MergedSoFar(sorted, |sorted|, merged)
    ensures Redaction(h, reg, text, merged, if Fits(merged, text) then Render(text, merged) else "")
  {
    assert sorted[..|sorted|] == sorted;
    HitsFitText(h, reg, text, sorted, merged);
    MergedCover(h, reg, text, sorted, merged);
    HitsInside(h, reg, text, sorted, merged);
    MergedLongest(h, reg, text, sorted, merged);
  }

  lemma MergedFits(text: string, sorted: seq<Span>, merged: seq<Span>)
    requires MergedSoFar(sorted, |sorted|, merged) && forall i :: 0 <= i < |sorted| ==> sorted[i].end <= |text|
    requires forall i :: 0 <= i < |sorted| ==> sorted[i].start <= sorted[i].end
    ensures Fits(merged, text)
  {
    assert sorted[..|sorted|] == sorted;
    forall k | 0 <= k < |merged| ensures merged[k].end <= |text| {
      if merged[k].start < merged[k].end {
        assert Covers(merged, merged[k].end - 1);
        assert Covers(sorted, merged[k].end - 1);
      } else {
        assert Leads(sorted, merged[k]);
      }
    }
  }

  lemma LeaderIsLongest(h: Hash, reg: Registry, text: string, sorted: seq<Span>, m: Span)
    requires Sorted(sorted) && Leads(sorted, m) && forall s :: s in sorted <==> Hit(h, reg, text, s)
    ensures LongestHit(h, reg, text, m)
  {
    var i :| 0 <= i < |sorted| && sorted[i].start == m.start && sorted[i].tag == m.tag && forall j :: 0 <= j < i ==>
      sorted[j].start != m.start;
    assert sorted[i] in sorted;
    forall t | Hit(h, reg, text, t) && t.start == m.start ensures t.end <= sorted[i].end {
      var j :| 0 <= j < |sorted| && sorted[j] == t;
      assert j == i || Before(sorted[i], sorted[j]);
    }
  }

  // ----- what a caller may rely on ------------------------------------------

  /** The positions `k` strictly inside the text that the `k`-th gap shows. */
  predicate InGap(text: string, merged: seq<Span>, k: nat, p: nat)
    requires k <= |merged|
  {
    Cursor(merged, k) <= p < (if k < |merged| then merged[k].start else |text|)
  }

  lemma HitIsInside(h: Hash, reg: Registry, text: string, merged: seq<Span>, out: string, s: Span)
    requires Redaction(h, reg, text, merged, out) && Hit(h, reg, text, s)
    ensures Inside(s, merged) && Fits(merged, text)
  {
  }

  lemma CoveredIsHit(h: Hash, reg: Registry, text: string, merged: seq<Span>, out: string, p: nat) returns (s: Span)
    requires Redaction(h, reg, text, merged, out) && Covers(merged, p)
    ensures Hit(h, reg, text, s) && s.start <= p < s.end
  {
    s :| Hit(h, reg, text, s) && s.start <= p < s.end;
  }

  /** A text position is shown in a gap exactly when no masked run covers it. */
  lemma GapsShowTheRest(text: string, merged: seq<Span>, p: nat)
    requires Fits(merged, text) && p < |text|
    ensures (exists k :: 0 <= k <= |merged| && InGap(text, merged, k, p)) <==> !Covers(merged, p)
  {
    if !Covers(merged, p) {
      var k := 0;
      while k < |merged| && merged[k].end <= p
        invariant 0 <= k <= |merged| && Cursor(merged, k) <= p
      {
        k := k + 1;
      }
      assert k < |merged| ==> p < merged[k].start;
      assert InGap(text, merged, k, p);
    }
  }

  /** No registered window survives inside an unmasked piece of the output. */
  lemma NoHitInsideGap(h: Hash, reg: Registry, text: string, merged: seq<Span>, out: string, s: Span, k: nat)
    requires Redaction(h, reg, text, merged, out) && k <= |merged|
    requires Hit(h, reg, text, s) && s.start < s.end
    ensures !(Cursor(merged, k) <= s.start && s.end <= if k < |merged| then merged[k].start else |text|)
  {
    HitIsInside(h, reg, text, merged, out, s);
    OutsideGap(text, merged, s, k);
  }

  lemma OutsideGap(text: string, merged: seq<Span>, s: Span, k: nat)
    requires Fits(merged, text) && Inside(s, merged) && s.start < s.end && k <= |merged|
    ensures !(Cursor(merged, k) <= s.start && s.end <= if k < |merged| then merged[k].start else |text|)
  {
    var m :| 0 <= m < |merged| && merged[m].start <= s.start && s.end <= merged[m].end;
    assert k < m ==> merged[k].end < merged[m].start;
    assert m < k - 1 ==> merged[m].end < merged[k - 1].start;
  }

  predicate Occurs(text: string, secret: string, i: nat) {
    i + |secret| <= |text| && text[i..i + |secret|] == secret
  }

  /** Every occurrence of a secret whose digest and length are registered lies inside one masked run. */
  lemma SecretIsMasked(h: Hash, reg: Registry, text: string, merged: seq<Span>, out: string, secret: string, i: nat)
    requires Redaction(h, reg, text, merged, out)
    requires h(secret) in reg && |secret| in reg.Values && Occurs(text, secret, i)
    ensures exists k :: 0 <= k < |merged| && merged[k].start <= i && i + |secret| <= merged[k].end
  {
    var s := Span(i, i + |secret|, Label(h(secret)));
    OccurrenceIsHitIff(h, reg, text, secret, i);
    HitIsInside(h, reg, text, merged, out, s);
  }

  /** An occurrence of a secret with a registered digest is found exactly when its length is still a registered one. */
  lemma OccurrenceIsHitIff(h: Hash, reg: Registry, text: string, secret: string, i: nat)
    requires h(secret) in reg && Occurs(text, secret, i)
    ensures Hit(h, reg, text, Span(i, i + |secret|, Label(h(secret)))) <==> |secret| in reg.Values
  {
  }

  /** The registry after these secrets have been registered in turn. */
  function Registered(h: Hash, secrets: seq<string>): Registry {
    if secrets == [] then map[]
    else
      var last := secrets[|secrets| - 1];
      Registered(h, secrets[..|secrets| - 1])[h(last) := |last|]
  }

  /** The length kept for a digest is that of the last secret registered with it. */
  lemma {:induction false} RegisteredKeeps(h: Hash, secrets: seq<string>, k: nat)
    requires k < |secrets| && forall j :: k < j < |secrets| && SameDigest(h, secrets[j], secrets[k]) ==>
      |secrets[j]| == |secrets[k]|
    ensures h(secrets[k]) in Registered(h, secrets) && Registered(h, secrets)[h(secrets[k])] == |secrets[k]|
  {
    if k < |secrets| - 1 {
      var last := secrets[|secrets| - 1];
      RegisteredKeeps(h, secrets[..|secrets| - 1], k);
      assert SameDigest(h, last, secrets[k]) <==> h(last) == h(secrets[k]);
    }
  }

  /**
    Of secrets registered in turn, each is masked wherever it occurs unless a later
    one of another length has its digest.
   */
  lemma RegisteredIsMasked(h: Hash, secrets: seq<string>, k: nat, text: string, merged: seq<Span>, out: string, i: nat)
    requires k < |secrets| && forall j :: k < j < |secrets| && SameDigest(h, secrets[j], secrets[k]) ==>
      |secrets[j]| == |secrets[k]|
    requires Redaction(h, Registered(h, secrets), text, merged, out) && Occurs(text, secrets[k], i)
    ensures exists m :: 0 <= m < |merged| && merged[m].start <= i && i + |secrets[k]| <= merged[m].end
  {
    RegisteredKeeps(h, secrets, k);
    var reg := Registered(h, secrets);
    assert reg[h(secrets[k])] in reg.Values;
    SecretIsMasked(h, reg, text, merged, out, secrets[k], i);
  }

  // ----- secrets in the output ----------------------------------------------

  ghost predicate Contains(t: string, s: string) {
    exists i: nat :: Occurs(t, s, i)
  }

  /**
    Cut in two at `k`, the second piece and the start of the marker, or the first
    piece and its end, can be the same text.
   */
  predicate TouchesAt(s: string, marker: string, k: nat)
    requires k <= |s|
  {
    s[k..] <= marker || marker <= s[k..] || EndsWith(marker, s[..k]) || EndsWith(s[..k], marker)
  }

  /** The string can straddle an edge of the marker. */
  predicate Touches(s: string, marker: string) {
    exists k :: 0 < k < |s| && TouchesAt(s, marker, k)
  }

  lemma OccursLeft(a: string, b: string, s: string, i: nat)
    requires i + |s| <= |a|
    ensures Occurs(a + b, s, i) <==> Occurs(a, s, i)
  {
    assert (a + b)[i..i + |s|] == a[i..i + |s|];
  }

  lemma OccursRight(a: string, b: string, s: string, i: nat)
    ensures Occurs(a + b, s, |a| + i) <==> Occurs(b, s, i)
  {
    if |a| + i + |s| <= |a + b| { assert (a + b)[|a| + i..|a| + i + |s|] == b[i..i + |s|]; }
  }

  /** An occurrence that starts before the cut between `a` and `rest` and ends after it. */
  lemma OccursAcross(a: string, rest: string, s: string, i: nat)
    requires Occurs(a + rest, s, i) && i < |a| < i + |s|
    ensures var k := |a| - i; EndsWith(a, s[..k]) && s[k..] <= rest
  {
    var k, t := |a| - i, a + rest;
    forall j | 0 <= j < |s| ensures s[j] == t[i + j] { assert s[j] == t[i..i + |s|][j]; }
    assert a[i..] == s[..k];
    assert rest[..|s| - k] == s[k..];
  }

  /** A string that does not touch a marker occurs in the pieces around it or inside it, and nowhere else. */
  lemma ContainsAround(a: string, marker: string, b: string, s: string)
    requires s != [] && !Touches(s, marker)
    ensures Contains(a + marker + b, s) <==> Contains(a, s) || Contains(marker, s) || Contains(b, s)
  {
    if i: nat :| Occurs(a, s, i) {
      OccursLeft(a, marker, s, i);
      OccursLeft(a + marker, b, s, i);
    }
    if i: nat :| Occurs(marker, s, i) {
      OccursRight(a, marker, s, i);
      OccursLeft(a + marker, b, s, |a| + i);
    }
    if i: nat :| Occurs(b, s, i) {
      OccursRight(a + marker, b, s, i);
    }
    if i: nat :| Occurs(a + marker + b, s, i) { FoundAround(a, marker, b, s, i); }
  }

  lemma FoundAround(a: string, marker: string, b: string, s: string, i: nat)
    requires s != [] && !Touches(s, marker) && Occurs(a + marker + b, s, i)
    ensures Contains(a, s) || Contains(marker, s) || Contains(b, s)
  {
    var front := a + marker;
    if i >= |front| {
      OccursRight(front, b, s, i - |front|);
    } else if i + |s| <= |front| {
      OccursLeft(front, b, s, i);
      FoundInFront(a, marker, s, i);
    } else {
      OccursAcross(front, b, s, i);
      CutAtEnd(a, marker, s, |front| - i);
    }
  }

  lemma FoundInFront(a: string, marker: string, s: string, i: nat)
    requires s != [] && !Touches(s, marker) && Occurs(a + marker, s, i)
    ensures Contains(a, s) || Contains(marker, s)
  {
    if i >= |a| {
      OccursRight(a, marker, s, i - |a|);
    } else if i + |s| <= |a| {
      OccursLeft(a, marker, s, i);
    } else {
      OccursAcross(a, marker, s, i);
      NotTouching(s, marker, |a| - i);
    }
  }

  lemma NotTouching(s: string, marker: string, k: nat)
    requires !Touches(s, marker) && 0 < k < |s|
    ensures !TouchesAt(s, marker, k)
  {
  }

  /** Two texts that end with the same text end with one another. */
  lemma EndsNested(t: string, x: string, y: string)
    requires EndsWith(t, x) && EndsWith(t, y)
    ensures EndsWith(x, y) || EndsWith(y, x)
  {
    if |x| >= |y| {
      assert x[|x| - |y|..] == t[|t| - |y|..];
    } else {
      assert y[|y| - |x|..] == t[|t| - |x|..];
    }
  }

  lemma CutAtEnd(a: string, marker: string, s: string, k: nat)
    requires 0 < k < |s| && EndsWith(a + marker, s[..k])
    ensures Touches(s, marker)
  {
    assert EndsWith(a + marker, marker);
    EndsNested(a + marker, s[..k], marker);
    assert TouchesAt(s, marker, k);
  }

  /** The output up to the `n`-th marker and the piece after it. */
  function Part(text: string, spans: seq<Span>, n: nat): string
    requires n <= |spans| && Fits(spans, text)
  {
    RenderUpTo(text, spans, n) + Gap(text, spans, n)
  }

  /** One of the first `n` markers contains the string. */
  ghost predicate MarkerShows(spans: seq<Span>, n: nat, s: string)
    requires n <= |spans|
  {
    exists k :: 0 <= k < n && Contains(Marker(spans[k].tag), s)
  }

  lemma MarkerShowsNext(spans: seq<Span>, n: nat, s: string)
    requires n < |spans|
    ensures MarkerShows(spans, n + 1, s) <==> MarkerShows(spans, n, s) || Contains(Marker(spans[n].tag), s)
  {
  }

  ghost predicate GapShows(text: string, spans: seq<Span>, k: nat, s: string)
    requires k <= |spans| && Fits(spans, text)
  {
    Contains(Gap(text, spans, k), s)
  }

  ghost predicate Clear(spans: seq<Span>, s: string) {
    forall k :: 0 <= k < |spans| ==> !Touches(s, Marker(spans[k].tag))
  }

  /** No piece between the markers contains the string. */
  ghost predicate GapsClean(text: string, spans: seq<Span>, s: string)
    requires Fits(spans, text)
  {
    forall k :: 0 <= k <= |spans| ==> !GapShows(text, spans, k, s)
  }

  /** Up to here the string is shown exactly by the markers. */
  ghost predicate MarkersDecide(text: string, spans: seq<Span>, s: string, n: nat)
    requires n <= |spans| && Fits(spans, text)
  {
    Contains(Part(text, spans, n), s) == MarkerShows(spans, n, s)
  }

  lemma PartShows(text: string, spans: seq<Span>, s: string)
    requires Fits(spans, text) && s != [] && Clear(spans, s) && GapsClean(text, spans, s)
    ensures MarkersDecide(text, spans, s, |spans|)
  {
    DecideAtStart(text, spans, s);
    for n := 0 to |spans|
      invariant MarkersDecide(text, spans, s, n)
    {
      PartStep(text, spans, n, s);
    }
  }

  lemma DecideAtStart(text: string, spans: seq<Span>, s: string)
    requires Fits(spans, text) && GapsClean(text, spans, s)
    ensures MarkersDecide(text, spans, s, 0)
  {
    PartStarts(text, spans, s);
    assert !GapShows(text, spans, 0, s);
  }

  lemma PartStep(text: string, spans: seq<Span>, n: nat, s: string)
    requires n < |spans| && Fits(spans, text) && s != [] && Clear(spans, s) && GapsClean(text, spans, s)
    requires MarkersDecide(text, spans, s, n)
    ensures MarkersDecide(text, spans, s, n + 1)
  {
    assert !GapShows(text, spans, n + 1, s);
    PartNext(text, spans, n, s);
    MarkerShowsNext(spans, n, s);
  }

  lemma PartStarts(text: string, spans: seq<Span>, s: string)
    requires Fits(spans, text)
    ensures Contains(Part(text, spans, 0), s) <==> GapShows(text, spans, 0, s)
    ensures !MarkerShows(spans, 0, s)
  {
    assert Part(text, spans, 0) == Gap(text, spans, 0);
  }

  lemma PartNext(text: string, spans: seq<Span>, n: nat, s: string)
    requires n < |spans| && Fits(spans, text) && s != [] && !Touches(s, Marker(spans[n].tag))
    ensures Contains(Part(text, spans, n + 1), s) <==>
      Contains(Part(text, spans, n), s) || Contains(Marker(spans[n].tag), s) || GapShows(text, spans, n + 1, s)
  {
    ContainsAround(Part(text, spans, n), Marker(spans[n].tag), Gap(text, spans, n + 1), s);
  }

  lemma SliceOccurrence(text: string, from: nat, to: nat, s: string, i: nat)
    requires from <= to <= |text| && Occurs(text[from..to], s, i)
    ensures Occurs(text, s, from + i) && from + i + |s| <= to
  {
    var w, v := text[from..to][i..i + |s|], text[from + i..from + i + |s|];
    assert |w| == |v| && forall k :: 0 <= k < |w| ==> w[k] == text[from..to][i + k] == text[from + i + k] == v[k];
    assert w == v;
  }

  /** Every occurrence in the text is inside a masked run. */
  ghost predicate Hidden(text: string, merged: seq<Span>, secret: string) {
    forall at: nat :: Occurs(text, secret, at) ==> Inside(Span(at, at + |secret|, ""), merged)
  }

  lemma SecretIsHidden(h: Hash, reg: Registry, text: string, merged: seq<Span>, out: string, secret: string)
    requires Redaction(h, reg, text, merged, out) && h(secret) in reg && |secret| in reg.Values
    ensures Hidden(text, merged, secret)
  {
    forall at: nat | Occurs(text, secret, at) ensures Inside(Span(at, at + |secret|, ""), merged) {
      SecretIsMasked(h, reg, text, merged, out, secret, at);
    }
  }

  /** No unmasked piece contains a hidden string. */
  lemma GapsAreClean(text: string, merged: seq<Span>, secret: string, k: nat)
    requires Fits(merged, text) && Hidden(text, merged, secret) && k <= |merged| && secret != []
    ensures !GapShows(text, merged, k, secret)
  {
    if GapShows(text, merged, k, secret) {
      var i: nat :| Occurs(Gap(text, merged, k), secret, i);
      var from := Cursor(merged, k);
      SliceOccurrence(text, from, if k < |merged| then merged[k].start else |text|, secret, i);
      OutsideGap(text, merged, Span(from + i, from + i + |secret|, ""), k);
    }
  }

  /** Every marker in the output is that of a registered digest. */
  lemma MarkersAreRegistered(h: Hash, reg: Registry, text: string, merged: seq<Span>, out: string, k: nat)
      returns (d: string)
    requires Redaction(h, reg, text, merged, out) && k < |merged|
    ensures d in reg && merged[k].tag == Label(d)
  {
    assert LongestHit(h, reg, text, merged[k]);
    var s :| Hit(h, reg, text, s) && s.start == merged[k].start && s.tag == merged[k].tag;
    d := h(text[s.start..s.end]);
  }

  /** The string can straddle the marker of some registered digest. */
  ghost predicate TouchesSome(reg: Registry, s: string) {
    exists d :: d in reg && Touches(s, Marker(Label(d)))
  }

  /** The marker of some registered digest contains the string. */
  ghost predicate InsideSome(reg: Registry, s: string) {
    exists d :: d in reg && Contains(Marker(Label(d)), s)
  }

  /**
    Once no registered marker touches a registered secret, the output contains it
    exactly when one of its markers does.
   */
  lemma SecretShownIff(h: Hash, reg: Registry, text: string, merged: seq<Span>, out: string, secret: string)
    requires Redaction(h, reg, text, merged, out) && secret != [] && h(secret) in reg && |secret| in reg.Values
    requires !TouchesSome(reg, secret)
    ensures Contains(out, secret) <==> MarkerShows(merged, |merged|, secret)
  {
    SecretIsHidden(h, reg, text, merged, out, secret);
    forall k | 0 <= k <= |merged| ensures !GapShows(text, merged, k, secret) {
      GapsAreClean(text, merged, secret, k);
    }
    forall k | 0 <= k < |merged| ensures !Touches(secret, Marker(merged[k].tag)) {
      var d := MarkersAreRegistered(h, reg, text, merged, out, k);
    }
    PartShows(text, merged, secret);
  }

  /**
    No text ever shows a registered secret that touches no registered marker and
    is inside none: a condition on the secret and the registry alone.
   */
  lemma NeverShown(h: Hash, reg: Registry, text: string, merged: seq<Span>, out: string, secret: string)
    requires Redaction(h, reg, text, merged, out) && secret != [] && h(secret) in reg && |secret| in reg.Values
    requires !TouchesSome(reg, secret) && !InsideSome(reg, secret)
    ensures !Contains(out, secret)
  {
    SecretShownIff(h, reg, text, merged, out, secret);
    forall k | 0 <= k < |merged| ensures !Contains(Marker(merged[k].tag), secret) {
      var d := MarkersAreRegistered(h, reg, text, merged, out, k);
    }
  }

  // ----- when some text shows a secret --------------------------------------

  ghost predicate CanShow(h: Hash, reg: Registry, secret: string) {
    exists text, merged, out :: Redaction(h, reg, text, merged, out) && Contains(out, secret)
  }

  predicate Unbracketed(s: string) {
    s != [] && '<' !in s && '>' !in s
  }

  /** Only an angle bracket can touch a marker. */
  lemma UnbracketedTouchesNone(s: string, tag: string)
    requires Unbracketed(s)
    ensures !Touches(s, Marker(tag))
  {
    var m := Marker(tag);
    assert m[0] == '<' && m[|m| - 1] == '>';
    forall k | 0 < k < |s| ensures !TouchesAt(s, m, k) {
      assert s[k..][0] == s[k] && s[..k][k - 1] == s[k - 1];
    }
  }

  /** A text that is a registered value becomes the marker of its digest. */
  lemma WholeTextRedacts(h: Hash, reg: Registry, x: string)
    requires h(x) in reg && |x| in reg.Values
    ensures var s := Span(0, |x|, Label(h(x))); Redaction(h, reg, x, [s], Marker(s.tag))
  {
    var s := Span(0, |x|, Label(h(x)));
    assert x[0..|x|] == x && [s][0] == s;
    assert Hit(h, reg, x, s) && LongestHit(h, reg, x, s);
    forall t | Hit(h, reg, x, t) ensures Inside(t, [s]) {}
    forall p: nat ensures Covers([s], p) <==> HitAt(h, reg, x, p) {}
    assert Gap(x, [s], 0) == "" && Gap(x, [s], 1) == "";
    assert RenderUpTo(x, [s], 1) == RenderUpTo(x, [s], 0) + Gap(x, [s], 0) + Marker(s.tag);
    assert Render(x, [s]) == Marker(s.tag);
  }

  /** Every digest of a registry is that of a registered value whose length is the one kept. */
  lemma {:induction false} DigestOfSecret(h: Hash, secrets: seq<string>, d: string) returns (x: string)
    requires d in Registered(h, secrets)
    ensures x in secrets && h(x) == d && Registered(h, secrets)[d] == |x|
  {
    x := secrets[|secrets| - 1];
    if h(x) != d { x := DigestOfSecret(h, secrets[..|secrets| - 1], d); }
  }

  lemma InsideCanShow(h: Hash, secrets: seq<string>, secret: string, d: string)
    requires d in Registered(h, secrets) && Contains(Marker(Label(d)), secret)
    ensures CanShow(h, Registered(h, secrets), secret)
  {
    var reg := Registered(h, secrets);
    var x := DigestOfSecret(h, secrets, d);
    assert reg[d] in reg.Values;
    WholeTextRedacts(h, reg, x);
  }

  /**
    For secrets registered in turn: some text shows a registered secret without
    angle brackets exactly when the marker of some registered digest contains it.
   */
  lemma CanShowIff(h: Hash, secrets: seq<string>, secret: string)
    requires Unbracketed(secret)
    requires h(secret) in Registered(h, secrets) && |secret| in Registered(h, secrets).Values
    ensures CanShow(h, Registered(h, secrets), secret) <==> InsideSome(Registered(h, secrets), secret)
  {
    var reg := Registered(h, secrets);
    if InsideSome(reg, secret) {
      var d :| d in reg && Contains(Marker(Label(d)), secret);
      InsideCanShow(h, secrets, secret, d);
    } else {
      forall d | d in reg ensures !Touches(secret, Marker(Label(d))) { UnbracketedTouchesNone(secret, Label(d)); }
      forall text, merged, out | Redaction(h, reg, text, merged, out) ensures !Contains(out, secret) {
        NeverShown(h, reg, text, merged, out, secret);
      }
    }
  }

  /** The value `REDACTED:value:`, registered under any hash, is in every marker: redacting it alone shows it. */
  lemma MarkerTextLeaks(h: Hash) returns (secret: string, merged: seq<Span>, out: string)
    ensures secret == "REDACTED:" + "value:"
    ensures Redaction(h, map[h(secret) := |secret|], secret, merged, out) && Contains(out, secret)
  {
    var prefix := "value:";
    secret := "REDACTED:" + prefix;
    LabelSpelled(h(secret), prefix);
    merged, out := PrefixLeaks(h, secret, prefix);
  }

  lemma LabelSpelled(digest: string, prefix: string)
    requires prefix == "value:"
    ensures Label(digest) == prefix + Take(digest, 8)
  {
  }

  lemma PrefixLeaks(h: Hash, secret: string, prefix: string) returns (merged: seq<Span>, out: string)
    requires secret == "REDACTED:" + prefix && Label(h(secret)) == prefix + Take(h(secret), 8)
    ensures Redaction(h, map[h(secret) := |secret|], secret, merged, out) && Contains(out, secret)
  {
    merged, out := MarkedAlone(h, secret);
    SpelledInMarker(secret, prefix, Take(h(secret), 8));
  }

  lemma MarkedAlone(h: Hash, secret: string) returns (merged: seq<Span>, out: string)
    ensures Redaction(h, map[h(secret) := |secret|], secret, merged, out) && out == Marker(Label(h(secret)))
  {
    var reg := map[h(secret) := |secret|];
    assert reg[h(secret)] in reg.Values;
    WholeTextRedacts(h, reg, secret);
    merged, out := [Span(0, |secret|, Label(h(secret)))], Marker(Label(h(secret)));
  }

  lemma SpelledInMarker(secret: string, prefix: string, digest: string)
    requires secret == "REDACTED:" + prefix
    ensures Contains(Marker(prefix + digest), secret)
  {
    var open, rest := "<", digest + ">";
    assert Marker(prefix + digest) == open + (secret + rest);
    assert secret[0..0 + |secret|] == secret;
    OccursLeft(secret, rest, secret, 0);
    OccursRight(open, secret + rest, secret, 0);
  }

  // ----- secrets that touch a marker ----------------------------------------

  /** The text contains the secret at one place only. */
  ghost predicate OnceAt(text: string, secret: string, k: nat) {
    Occurs(text, secret, k) && forall i: nat :: Occurs(text, secret, i) ==> i == k
  }

  /** A text with one occurrence of the only registered secret is redacted around it. */
  lemma OnceRedacts(h: Hash, text: string, secret: string, k: nat)
    requires CollisionFree(h) && secret != [] && OnceAt(text, secret, k)
    ensures var s := Span(k, k + |secret|, Label(h(secret)));
      Redaction(h, map[h(secret) := |secret|], text, [s], text[..k] + Marker(s.tag) + text[k + |secret|..])
  {
    var reg, s := map[h(secret) := |secret|], Span(k, k + |secret|, Label(h(secret)));
    assert reg[h(secret)] in reg.Values;
    OnlyHit(h, reg, text, secret, s);
    OneHitRedacts(h, reg, text, s);
    assert Gap(text, [s], 0) == text[..k] && Gap(text, [s], 1) == text[k + |secret|..];
    assert RenderUpTo(text, [s], 1) == RenderUpTo(text, [s], 0) + Gap(text, [s], 0) + Marker(s.tag);
    assert RenderUpTo(text, [s], 0) + Gap(text, [s], 0) == text[..k];
  }

  lemma OnlyHit(h: Hash, reg: Registry, text: string, secret: string, s: Span)
    requires CollisionFree(h) && reg == map[h(secret) := |secret|] && OnceAt(text, secret, s.start)
    requires s.end == s.start + |secret| && s.tag == Label(h(secret))
    ensures Hit(h, reg, text, s) && forall t :: Hit(h, reg, text, t) ==> t == s
  {
    assert reg[h(secret)] in reg.Values;
    forall t | Hit(h, reg, text, t) ensures t == s {
      assert SameDigest(h, text[t.start..t.end], secret);
      assert Occurs(text, secret, t.start);
    }
  }

  lemma OneHitRedacts(h: Hash, reg: Registry, text: string, s: Span)
    requires Hit(h, reg, text, s) && s.start < s.end && forall t :: Hit(h, reg, text, t) ==> t == s
    ensures Fits([s], text) && Redaction(h, reg, text, [s], Render(text, [s]))
  {
    assert [s][0] == s;
    assert LongestHit(h, reg, text, s);
    assert Inside(s, [s]);
    forall p: nat ensures Covers([s], p) <==> HitAt(h, reg, text, p) {}
  }

  /**
    A secret whose end is the start of its own marker comes back where its first
    part stands before the secret, unless that text hides it by a second occurrence.
   */
  lemma LeftEdgeLeaks(h: Hash, secret: string, k: nat)
    requires CollisionFree(h) && 0 < k < |secret| && secret[k..] <= Marker(Label(h(secret)))
    requires OnceAt(secret[..k] + secret, secret, k)
    ensures CanShow(h, map[h(secret) := |secret|], secret)
  {
    var text, m := secret[..k] + secret, Marker(Label(h(secret)));
    OnceRedacts(h, text, secret, k);
    assert text[..k] == secret[..k] && text[k + |secret|..] == "";
    var out := text[..k] + m + text[k + |secret|..];
    assert out == secret[..k] + m;
    assert out[0..0 + |secret|] == secret[..k] + secret[k..] == secret;
    assert Occurs(out, secret, 0);
  }

  /** The same at the other edge. */
  lemma RightEdgeLeaks(h: Hash, secret: string, k: nat)
    requires CollisionFree(h) && 0 < k < |secret| && EndsWith(Marker(Label(h(secret))), secret[..k])
    requires OnceAt(secret + secret[k..], secret, 0)
    ensures CanShow(h, map[h(secret) := |secret|], secret)
  {
    var text, m := secret + secret[k..], Marker(Label(h(secret)));
    OnceRedacts(h, text, secret, 0);
    FirstThenRest(m, secret, secret[k..]);
    MarkerThenRest(m, secret, k);
  }

  lemma FirstThenRest(m: string, secret: string, rest: string)
    ensures (secret + rest)[..0] + m + (secret + rest)[0 + |secret|..] == m + rest
  {
    assert (secret + rest)[0 + |secret|..] == rest && (secret + rest)[..0] + m == m;
  }

  lemma MarkerThenRest(m: string, secret: string, k: nat)
    requires k <= |secret| && EndsWith(m, secret[..k])
    ensures Contains(m + secret[k..], secret)
  {
    var front := m[..|m| - k];
    assert m == front + secret[..k];
    assert secret == secret[..k] + secret[k..];
    assert m + secret[k..] == front + secret;
    assert secret[0..0 + |secret|] == secret;
    OccursRight(front, secret, secret, 0);
  }

  /** Under every collision-free hash, a secret that ends with its only `<` comes back. */
  lemma BracketLeaks(h: Hash, u: string)
    requires CollisionFree(h) && u != [] && '<' !in u
    ensures CanShow(h, map[h(u + "<") := |u| + 1], u + "<")
  {
    var secret := u + "<";
    assert secret[..|u|] == u && secret[|u|..] == "<";
    assert Marker(Label(h(secret)))[0] == '<';
    OnlyAtTheEnd(u);
    LeftEdgeLeaks(h, secret, |u|);
  }

  lemma OnlyAtTheEnd(u: string)
    requires '<' !in u
    ensures OnceAt(u + (u + "<"), u + "<", |u|)
  {
    var text, secret := u + (u + "<"), u + "<";
    assert text[|u|..|u| + |secret|] == secret;
    forall i: nat | Occurs(text, secret, i) ensures i == |u| {
      assert text[i + |u|] == text[i..i + |secret|][|u|] == '<';
      assert forall k :: 0 <= k < |u| ==> text[k] == u[k];
      assert forall k :: |u| <= k < |u| + |u| ==> text[k] == u[k - |u|];
    }
  }

  predicate SameDigest(h: Hash, a: string, b: string) {
    h(a) == h(b)
  }

  ghost predicate CollisionFree(h: Hash) {
    forall a, b :: SameDigest(h, a, b) ==> a == b
  }

  function Digests(h: Hash, secrets: set<string>): set<string> {
    set a | a in secrets :: h(a)
  }

  /** With a collision-free hash every masked position belongs to an occurrence of a registered secret. */
  lemma OnlySecretsAreMasked(h: Hash, reg: Registry, text: string, merged: seq<Span>, out: string,
      secrets: set<string>, p: nat)
    requires Redaction(h, reg, text, merged, out) && Covers(merged, p)
    requires CollisionFree(h)
    requires forall d :: d in reg ==> d in Digests(h, secrets)
    ensures exists i: nat, a: string :: a in secrets && Occurs(text, a, i) && i <= p < i + |a|
  {
    var s := CoveredIsHit(h, reg, text, merged, out, p);
    var a := HitIsSecret(h, reg, text, secrets, s);
    assert Occurs(text, a, s.start);
  }

  lemma HitIsSecret(h: Hash, reg: Registry, text: string, secrets: set<string>, s: Span) returns (a: string)
    requires Hit(h, reg, text, s)
    requires CollisionFree(h)
    requires forall d :: d in reg ==> d in Digests(h, secrets)
    ensures a in secrets && Occurs(text, a, s.start) && s.end == s.start + |a|
  {
    var window := text[s.start..s.end];
    a :| a in secrets && h(a) == h(window);
    assert SameDigest(h, a, window);
  }

  // ----- the output is determined -------------------------------------------

  /** Two redactions mask the same runs, so the order in which lengths are scanned does not matter. */
  lemma {:induction false} RunsDetermined(a: seq<Span>, b: seq<Span>)
    requires Separated(a) && Separated(b) && (forall p: nat :: Covers(a, p) <==> Covers(b, p))
    requires (forall k :: 0 <= k < |a| ==> a[k].start < a[k].end) &&
      (forall k :: 0 <= k < |b| ==> b[k].start < b[k].end)
    ensures |a| == |b| && forall k :: 0 <= k < |a| ==> a[k].start == b[k].start && a[k].end == b[k].end
    decreases |a|
  {
    if a == [] || b == [] {
      if a != [] { assert Covers(a, a[0].start); }
      if b != [] { assert Covers(b, b[0].start); }
    } else {
      FirstRunDetermined(a, b);
      var a', b' := a[1..], b[1..];
      assert a == [a[0]] + a' && b == [b[0]] + b';
      forall p: nat ensures Covers(a', p) <==> Covers(b', p) {
        CoversCons(a, p);
        CoversCons(b, p);
      }
      RunsDetermined(a', b');
    }
  }

  lemma CoversCons(a: seq<Span>, p: nat)
    requires a != [] && Separated(a)
    ensures Covers(a, p) <==> Covers(a[1..], p) || a[0].start <= p < a[0].end
    ensures Covers(a[1..], p) ==> a[0].end < p
  {
    if Covers(a, p) {
      var k :| 0 <= k < |a| && a[k].start <= p < a[k].end;
      assert k > 0 ==> a[1..][k - 1] == a[k];
    }
    if Covers(a[1..], p) {
      var k :| 0 <= k < |a[1..]| && a[1..][k].start <= p < a[1..][k].end;
      assert a[k + 1] == a[1..][k];
    }
  }

  lemma FirstRunDetermined(a: seq<Span>, b: seq<Span>)
    requires a != [] && b != [] && Separated(a) && Separated(b) && (forall p: nat :: Covers(a, p) <==> Covers(b, p))
    requires a[0].start < a[0].end && b[0].start < b[0].end
    ensures a[0].start == b[0].start && a[0].end == b[0].end
  {
    assert Covers(a, a[0].start) && Covers(b, b[0].start);
    CoversCons(a, a[0].end);
    CoversCons(b, b[0].end);
    CoversCons(a, b[0].end);
    CoversCons(b, a[0].end);
    CoversCons(a, a[0].end - 1);
    CoversCons(b, a[0].end - 1);
    CoversCons(a, b[0].end - 1);
    CoversCons(b, b[0].end - 1);
    CoversCons(b, a[0].start);
    CoversCons(a, b[0].start);
    assert Covers(a, a[0].end - 1) && Covers(b, b[0].end - 1);
  }

  lemma RunIsNonEmpty(h: Hash, reg: Registry, text: string, merged: seq<Span>, out: string, k: nat)
    requires Redaction(h, reg, text, merged, out) && 0 !in reg.Values && k < |merged|
    ensures merged[k].start < merged[k].end
  {
    assert LongestHit(h, reg, text, merged[k]);
    var s :| Hit(h, reg, text, s) && s.start == merged[k].start;
    HitIsInside(h, reg, text, merged, out, s);
    SameRun(merged, k, s);
  }

  lemma SameRun(merged: seq<Span>, k: nat, s: Span)
    requires Separated(merged) && k < |merged| && Inside(s, merged) && s.start == merged[k].start && s.start < s.end
    ensures s.end <= merged[k].end
  {
    var m :| 0 <= m < |merged| && merged[m].start <= s.start && s.end <= merged[m].end;
    InOrder(merged, m, k);
    InOrder(merged, k, m);
  }

  lemma InOrder(merged: seq<Span>, i: nat, j: nat)
    requires Separated(merged) && i < |merged| && j < |merged|
    ensures i < j ==> merged[i].end < merged[j].start
  {
  }

  lemma TagDetermined(h: Hash, reg: Registry, text: string, m: Span, m': Span)
    requires LongestHit(h, reg, text, m) && LongestHit(h, reg, text, m') && m.start == m'.start
    ensures m.tag == m'.tag
  {
    var s :| Hit(h, reg, text, s) && s.start == m.start && s.tag == m.tag && forall t ::
      Hit(h, reg, text, t) && t.start == m.start ==> t.end <= s.end;
    var s' :| Hit(h, reg, text, s') && s'.start == m.start && s'.tag == m'.tag && forall t ::
      Hit(h, reg, text, t) && t.start == m.start ==> t.end <= s'.end;
    assert s.end == s'.end;
  }

  lemma RunsNonEmpty(h: Hash, reg: Registry, text: string, merged: seq<Span>, out: string)
    requires Redaction(h, reg, text, merged, out) && 0 !in reg.Values
    ensures Separated(merged) && forall k :: 0 <= k < |merged| ==> merged[k].start < merged[k].end
  {
    forall k | 0 <= k < |merged| ensures merged[k].start < merged[k].end { RunIsNonEmpty(h, reg, text, merged, out,
      k); }
  }

  lemma SameCover(h: Hash, reg: Registry, text: string, a: seq<Span>, outA: string, b: seq<Span>, outB: string)
    requires Redaction(h, reg, text, a, outA) && Redaction(h, reg, text, b, outB)
    ensures forall p: nat :: Covers(a, p) <==> Covers(b, p)
  {
    forall p: nat ensures Covers(a, p) <==> Covers(b, p) {
      assert Covers(a, p) <==> HitAt(h, reg, text, p);
    }
  }

  /**
    The output is a function of the text and the registered values alone, whatever
    order the windows are scanned in.
   */
  lemma RedactionUnique(h: Hash, reg: Registry, text: string, a: seq<Span>, outA: string, b: seq<Span>, outB: string)
    requires 0 !in reg.Values && Redaction(h, reg, text, a, outA) && Redaction(h, reg, text, b, outB)
    ensures a == b && outA == outB
  {
    RunsNonEmpty(h, reg, text, a, outA);
    RunsNonEmpty(h, reg, text, b, outB);
    SameCover(h, reg, text, a, outA, b, outB);
    RunsDetermined(a, b);
    forall k | 0 <= k < |a| ensures a[k] == b[k] {
      assert LongestHit(h, reg, text, a[k]) && LongestHit(h, reg, text, b[k]);
      TagDetermined(h, reg, text, a[k], b[k]);
    }
    assert a == b;
  }
}
