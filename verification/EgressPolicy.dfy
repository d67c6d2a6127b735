/**
  packages/egress-broker/src/policy.ts and its hand-kept copy in
  packages/egress-broker-container/docker/proxy.ts, joined by `serializePolicy`
  of packages/egress-broker-container/src/container.ts.

  Lower-casing is modelled on the characters whose lower case is an ASCII
  letter: the capital letters and the Kelvin sign. Other characters occur in no
  valid entry and keep no host from matching a suffix.
 */
module EgressPolicy {
  import opened Text
  import opened Wrappers

  datatype Json =
    | JNull
    | JBool(b: bool)
    | JNum(n: real)
    | JStr(s: string)
    | JArr(items: seq<Json>)
    | JObj(fields: map<string, Json>)

  datatype Policy = Policy(allowedHosts: seq<string>, allowedHostSuffixes: seq<string>, egressLogPath: Option<string>)

  datatype Result<T> = Ok(value: T) | Violation

  // ----- host names ---------------------------------------------------------

  function LowerChar(c: char): char {
    if 'A' <= c <= 'Z' then (c as int + 32) as char else if c == '\U{212A}' then 'k' else c
  }

  function Lower(s: string): (r: string)
    ensures |r| == |s| && forall i :: 0 <= i < |s| ==> r[i] == LowerChar(s[i])
  {
    seq(|s|, i requires 0 <= i < |s| => LowerChar(s[i]))
  }

  predicate AlphaNum(c: char) {
    'a' <= c <= 'z' || '0' <= c <= '9'
  }

  /** The regular expression for one DNS label, with the length bound of section 2.3.4 of RFC 1035. */
  predicate IsLabel(l: string) {
    && 0 < |l| <= 63 && AlphaNum(l[0]) && AlphaNum(l[|l| - 1])
    && forall i :: 0 <= i < |l| ==> AlphaNum(l[i]) || l[i] == '-'
  }

  predicate IsValidHostname(h: string) {
    && 0 < |h| <= 253 && h[0] != '.' && h[|h| - 1] != '.'
    && forall i :: 0 <= i < |Split(h, '.')| ==> IsLabel(Split(h, '.')[i])
  }

  predicate IsValidSuffix(s: string) {
    s != [] && s[0] == '.' && IsValidHostname(s[1..])
  }

  predicate IsValidEntry(suffix: bool, s: string) {
    if suffix then IsValidSuffix(s) else IsValidHostname(s)
  }

  // ----- loading ------------------------------------------------------------

  /** The allow-list made of the first `n` raw entries: lower-cased, validated, first occurrences only. */
  function Entries(items: seq<Json>, suffix: bool, n: nat): Result<seq<string>>
    requires n <= |items|
  {
    if n == 0 then Ok([])
    else
      var r, item := Entries(items, suffix, n - 1), items[n - 1];
      if r.Violation? || !item.JStr? || !IsValidEntry(suffix, Lower(item.s)) then Violation
      else if Lower(item.s) in r.value then r else Ok(r.value + [Lower(item.s)])
  }

  function Field(raw: Json, key: string): Option<Json>
    requires raw.JObj?
  {
    if key in raw.fields then Some(raw.fields[key]) else None
  }

  predicate Nullish(v: Option<Json>) {
    v.None? || v.value.JNull?
  }

  /** Host side: absent and null mean empty, anything else must be an array. */
  function HostList(v: Option<Json>, suffix: bool): Result<seq<string>> {
    if Nullish(v) then Ok([])
    else if v.value.JArr? then Entries(v.value.items, suffix, |v.value.items|)
    else Violation
  }

  /** Container side: whatever is not an array means empty. */
  function ContainerList(v: Option<Json>, suffix: bool): Result<seq<string>> {
    if v.Some? && v.value.JArr? then Entries(v.value.items, suffix, |v.value.items|) else Ok([])
  }

  predicate LogPathOk(v: Option<Json>) {
    Nullish(v) || (v.value.JStr? && v.value.s != "")
  }

  predicate DeniesByDefault(raw: Json) {
    raw.JObj? && Field(raw, "defaultPolicy") == Some(JStr("deny"))
  }

  function LoadEgress(raw: Json): Result<Policy> {
    if !DeniesByDefault(raw) then Violation
    else
      var hosts, suffixes := HostList(Field(raw, "allowedHosts"), false),
        HostList(Field(raw, "allowedHostSuffixes"), true);
      var path := Field(raw, "egressLogPath");
      if hosts.Violation? || suffixes.Violation? || !LogPathOk(path) then Violation
      else Ok(Policy(hosts.value, suffixes.value, if Nullish(path) then None else Some(path.value.s)))
  }

  function LoadContainer(raw: Json): Result<Policy> {
    if !DeniesByDefault(raw) then Violation
    else
      var hosts, suffixes := ContainerList(Field(raw, "allowedHosts"), false),
        ContainerList(Field(raw, "allowedHostSuffixes"), true);
      if hosts.Violation? || suffixes.Violation? then Violation else Ok(Policy(hosts.value, suffixes.value, None))
  }

  function Strings(ss: seq<string>): (items: seq<Json>)
    ensures |items| == |ss| && forall i :: 0 <= i < |ss| ==> items[i] == JStr(ss[i])
  {
    seq(|ss|, i requires 0 <= i < |ss| => JStr(ss[i]))
  }

  function Serialize(p: Policy): Json {
    var body := map["defaultPolicy" := JStr("deny"), "allowedHosts" := JArr(Strings(p.allowedHosts)),
                    "allowedHostSuffixes" := JArr(Strings(p.allowedHostSuffixes))];
    JObj(if p.egressLogPath.Some? then body["egressLogPath" := JStr(p.egressLogPath.value)] else body)
  }

  // ----- the loops ----------------------------------------------------------

  /** The host's loop, with its set of entries already seen. */
  method CollectHost(items: seq<Json>, suffix: bool) returns (r: Result<seq<string>>)
    ensures r == Entries(items, suffix, |items|)
  {
    var list: seq<string>, seen: set<string> := [], {};
    for i := 0 to |items|
      invariant Entries(items, suffix, i) == Ok(list)
      invariant forall s :: s in seen <==> s in list
    {
      if !items[i].JStr? { ViolationStays(items, suffix, i + 1, |items|); return Violation; }
      var normalized := Lower(items[i].s);
      if !IsValidEntry(suffix, normalized) { ViolationStays(items, suffix, i + 1, |items|); return Violation; }
      if normalized !in seen {
        seen := seen + {normalized};
        list := list + [normalized];
      }
    }
    r := Ok(list);
  }

  /** The container's loop, which searches the list itself. */
  method CollectContainer(items: seq<Json>, suffix: bool) returns (r: Result<seq<string>>)
    ensures r == Entries(items, suffix, |items|)
  {
    var list: seq<string> := [];
    for i := 0 to |items|
      invariant Entries(items, suffix, i) == Ok(list)
    {
      if !items[i].JStr? { ViolationStays(items, suffix, i + 1, |items|); return Violation; }
      var n := Lower(items[i].s);
      if !IsValidEntry(suffix, n) { ViolationStays(items, suffix, i + 1, |items|); return Violation; }
      if n !in list { list := list + [n]; }
    }
    r := Ok(list);
  }

  lemma {:induction false} ViolationStays(items: seq<Json>, suffix: bool, n: nat, m: nat)
    requires n <= m <= |items| && Entries(items, suffix, n).Violation?
    ensures Entries(items, suffix, m).Violation?
  {
    if n < m { ViolationStays(items, suffix, n, m - 1); }
  }

  // ----- matching -----------------------------------------------------------

  function Undot(name: string): string {
    if name != [] && name[|name| - 1] == '.' then name[..|name| - 1] else name
  }

  function Unbracket(name: string): string {
    if |name| >= 2 && name[0] == '[' && name[|name| - 1] == ']' then name[1..|name| - 1] else name
  }

  function NormalizeHost(host: string): string {
    Undot(Unbracket(Lower(Trim(host))))
  }

  /** The labels of `zone` are the last labels of `name`. */
  predicate WithinZone(name: string, zone: string) {
    var n, z := Split(name, '.'), Split(zone, '.');
    |z| <= |n| && n[|n| - |z|..] == z
  }

  /** `suffix.slice(1)`. */
  function Zone(suffix: string): string {
    if suffix == "" then "" else suffix[1..]
  }

  /** The string test both copies apply to a suffix entry. */
  predicate SuffixHit(target: string, suffix: string) {
    EndsWith(target, suffix) || target == Zone(suffix)
  }

  /** The scan of both copies. */
  ghost predicate Scanned(p: Policy, host: string) {
    TargetHit(p, NormalizeHost(host))
  }

  ghost predicate TargetHit(p: Policy, target: string) {
    target != "" && (target in p.allowedHosts
      || exists i :: 0 <= i < |p.allowedHostSuffixes| && SuffixHit(target, p.allowedHostSuffixes[i]))
  }

  /** What the policy promises: an exact entry, or a suffix entry whose zone contains the host. */
  ghost predicate Allows(p: Policy, host: string) {
    var target := NormalizeHost(host);
    target != "" && (target in p.allowedHosts
      || exists i :: 0 <= i < |p.allowedHostSuffixes| && WithinZone(target, Zone(p.allowedHostSuffixes[i])))
  }

  ghost predicate SuffixesDotted(p: Policy) {
    forall i :: 0 <= i < |p.allowedHostSuffixes| ==>
      p.allowedHostSuffixes[i] != [] && p.allowedHostSuffixes[i][0] == '.'
  }

  method MatchHost(p: Policy, host: string) returns (allowed: bool)
    ensures allowed <==> Scanned(p, host)
  {
    var target := NormalizeHost(host);
    allowed := ScanTarget(p, target);
  }

  method ScanTarget(p: Policy, target: string) returns (allowed: bool)
    ensures allowed <==> TargetHit(p, target)
  {
    if |target| == 0 { return false; }
    for i := 0 to |p.allowedHosts|
      invariant forall k :: 0 <= k < i ==> p.allowedHosts[k] != target
    {
      if p.allowedHosts[i] == target { return true; }
    }
    for i := 0 to |p.allowedHostSuffixes|
      invariant forall k :: 0 <= k < i ==> !SuffixHit(target, p.allowedHostSuffixes[k])
    {
      if EndsWith(target, p.allowedHostSuffixes[i]) { return true; }
      if target == Zone(p.allowedHostSuffixes[i]) { return true; }
    }
    return false;
  }

  /** With dotted suffixes the scan decides by whole labels: no host matches by accident of spelling. */
  lemma ScanIsByLabels(p: Policy, host: string)
    requires SuffixesDotted(p)
    ensures Scanned(p, host) <==> Allows(p, host)
  {
    var target := NormalizeHost(host);
    forall i | 0 <= i < |p.allowedHostSuffixes|
      ensures SuffixHit(target, p.allowedHostSuffixes[i]) <==> WithinZone(target, Zone(p.allowedHostSuffixes[i]))
    {
      SuffixIsZone(target, p.allowedHostSuffixes[i]);
    }
  }

  /** Ending with `.zone` or being the zone is the same as having the zone's labels last, for every string. */
  lemma SuffixIsZone(name: string, suffix: string)
    requires suffix != [] && suffix[0] == '.'
    ensures SuffixHit(name, suffix) <==> WithinZone(name, Zone(suffix))
  {
    var zone := suffix[1..];
    assert suffix == ['.'] + zone;
    if EndsWith(name, suffix) { EndsInZone(name[..|name| - |suffix|], zone, name); }
    if WithinZone(name, zone) { ZoneEnds(name, zone); }
  }

  lemma EndsInZone(front: string, zone: string, name: string)
    requires name == front + (['.'] + zone)
    ensures WithinZone(name, zone)
  {
    assert name == front + ['.'] + zone;
    SplitAppend(front, zone, '.');
  }

  lemma ZoneEnds(name: string, zone: string)
    requires WithinZone(name, zone)
    ensures name == zone || EndsWith(name, ['.'] + zone)
  {
    var n, z := Split(name, '.'), Split(zone, '.');
    var front := n[..|n| - |z|];
    assert n == front + z;
    if front != [] {
      JoinAppend(front, z, '.');
      assert name == Join(front, '.') + (['.'] + zone);
    } else {
      assert n == z;
    }
  }

  // ----- spellings of a host ------------------------------------------------

  /** Neither in brackets nor with a trailing dot. */
  predicate Bare(h: string) {
    && h != [] && h[|h| - 1] != '.'
    && !(|h| >= 2 && h[0] == '[' && h[|h| - 1] == ']')
  }

  /**
    The hosts that a bare name stands for: once padding and case are gone, the
    name itself, the name with one trailing dot, or either of them in brackets.
   */
  lemma NormalizesToIff(host: string, h: string)
    requires Bare(h)
    ensures NormalizeHost(host) == h <==>
      var lower := Lower(Trim(host));
      lower == h || lower == h + "." || lower == "[" + h + "]" || lower == "[" + h + "." + "]"
  {
    UnwrapIff(Lower(Trim(host)), h);
  }

  lemma UnwrapIff(name: string, h: string)
    requires Bare(h)
    ensures Undot(Unbracket(name)) == h <==>
      name == h || name == h + "." || name == "[" + h + "]" || name == "[" + h + "." + "]"
  {
    UndotIff(Unbracket(name), h);
    UnbracketIff(name, h);
    UnbracketIff(name, h + ".");
  }

  lemma UndotIff(name: string, h: string)
    requires Bare(h)
    ensures Undot(name) == h <==> name == h || name == h + "."
  {
    if name != [] && name[|name| - 1] == '.' { assert name == name[..|name| - 1] + "."; }
    assert (h + ".")[..|h|] == h;
  }

  lemma UnbracketIff(name: string, h: string)
    requires h != [] && !(|h| >= 2 && h[0] == '[' && h[|h| - 1] == ']')
    ensures Unbracket(name) == h <==> name == h || name == "[" + h + "]"
  {
    if |name| >= 2 && name[0] == '[' && name[|name| - 1] == ']' { assert name == "[" + name[1..|name| - 1] + "]"; }
    var wrapped := "[" + h + "]";
    assert |wrapped| == |h| + 2 && wrapped[0] == '[' && wrapped[|h| + 1] == ']' && wrapped[1..|h| + 1] == h;
  }

  lemma LowerKeepsSpace(s: string)
    ensures Blank(Lower(s)) <==> Blank(s)
    ensures s != [] ==> (IsSpace(Lower(s)[0]) <==> IsSpace(s[0]))
    ensures s != [] ==> (IsSpace(Lower(s)[|s| - 1]) <==> IsSpace(s[|s| - 1]))
  {
    forall i | 0 <= i < |s| ensures IsSpace(Lower(s)[i]) <==> IsSpace(s[i]) {}
  }

  /** Lower-casing and trimming can be done in either order. */
  lemma LowerThenTrim(s: string)
    ensures Trim(Lower(s)) == Lower(Trim(s))
  {
    var before, after := TrimParts(s);
    LowerParts(before, Trim(s), after);
    LowerTrimmed(before, Trim(s), after);
  }

  lemma LowerTrimmed(before: string, core: string, after: string)
    requires Blank(before) && Blank(after) && (core != [] ==> !IsSpace(core[0]) && !IsSpace(core[|core| - 1]))
    ensures Trim(Lower(before) + Lower(core) + Lower(after)) == Lower(core)
  {
    LowerKeepsSpace(before);
    LowerKeepsSpace(core);
    LowerKeepsSpace(after);
    TrimCore(Lower(before), Lower(core), Lower(after));
  }

  lemma LowerParts(a: string, b: string, c: string)
    ensures Lower(a + b + c) == Lower(a) + Lower(b) + Lower(c)
  {
  }

  /** Blank padding around a host and the case of its letters make no difference. */
  lemma PaddingAndCase(host: string, other: string, before: string, after: string)
    requires Blank(before) && Blank(after) && Lower(host) == Lower(other)
    ensures NormalizeHost(before + host + after) == NormalizeHost(other)
  {
    TrimPadded(before, host, after);
    LowerThenTrim(host);
    LowerThenTrim(other);
  }

  /** A valid host name is bare, unpadded and in lower case: it stands for itself. */
  lemma HostnameIsBare(h: string)
    requires IsValidHostname(h)
    ensures Bare(h) && Trim(h) == h && Lower(h) == h && NormalizeHost(h) == h
  {
    HostnameIsLower(h);
    forall i | 0 <= i < |h| ensures h[i] == '.' || AlphaNum(h[i]) || h[i] == '-' { HostnameCharacter(h, i); }
    TrimTrimmed(h);
    NormalizesToIff(h, h);
  }

  lemma HostnameCharacter(h: string, i: nat)
    requires IsValidHostname(h) && i < |h|
    ensures h[i] == '.' || AlphaNum(h[i]) || h[i] == '-'
  {
    SplitKeeps(h, '.', i);
  }

  // ----- what loading guarantees --------------------------------------------

  lemma EntriesAre(items: seq<Json>, suffix: bool, n: nat)
    requires n <= |items|
    ensures Entries(items, suffix, n).Ok? <==> AllValid(items, suffix, n)
    ensures Entries(items, suffix, n).Ok? ==> Lists(items, suffix, n, Entries(items, suffix, n).value)
  {
    EntriesOkIff(items, suffix, n);
    if Entries(items, suffix, n).Ok? { EntriesList(items, suffix, n); }
  }

  predicate ValidItem(item: Json, suffix: bool) {
    item.JStr? && IsValidEntry(suffix, Lower(item.s))
  }

  predicate AllValid(items: seq<Json>, suffix: bool, n: nat)
    requires n <= |items|
  {
    forall i :: 0 <= i < n ==> ValidItem(items[i], suffix)
  }

  lemma AllValidNext(items: seq<Json>, suffix: bool, n: nat)
    requires n < |items|
    ensures AllValid(items, suffix, n + 1) <==> AllValid(items, suffix, n) && ValidItem(items[n], suffix)
  {
  }

  lemma EntriesNext(items: seq<Json>, suffix: bool, n: nat)
    requires n < |items|
    ensures Entries(items, suffix, n + 1).Ok? <==> Entries(items, suffix, n).Ok? && ValidItem(items[n], suffix)
    ensures Entries(items, suffix, n + 1).Ok? ==>
      var list, s := Entries(items, suffix, n).value, Lower(items[n].s);
      Entries(items, suffix, n + 1).value == if s in list then list else list + [s]
  {
  }

  lemma {:induction false} EntriesOkIff(items: seq<Json>, suffix: bool, n: nat)
    requires n <= |items|
    ensures Entries(items, suffix, n).Ok? <==> AllValid(items, suffix, n)
  {
    if n > 0 {
      EntriesOkIff(items, suffix, n - 1);
      EntriesNext(items, suffix, n - 1);
      AllValidNext(items, suffix, n - 1);
    }
  }

  lemma {:induction false} EntriesList(items: seq<Json>, suffix: bool, n: nat)
    requires n <= |items| && Entries(items, suffix, n).Ok?
    ensures Lists(items, suffix, n, Entries(items, suffix, n).value)
  {
    if n > 0 {
      EntriesNext(items, suffix, n - 1);
      EntriesList(items, suffix, n - 1);
      EntriesListNext(items, suffix, n - 1);
    }
  }

  lemma EntriesListNext(items: seq<Json>, suffix: bool, n: nat)
    requires n < |items| && Entries(items, suffix, n + 1).Ok? && Entries(items, suffix, n).Ok?
    requires Lists(items, suffix, n, Entries(items, suffix, n).value)
    ensures Lists(items, suffix, n + 1, Entries(items, suffix, n + 1).value)
  {
    EntriesNext(items, suffix, n);
    ListsNext(items, suffix, n, Entries(items, suffix, n).value);
  }

  /** The list holds the first `n` entries, lower-cased, each once, and they are valid. */
  ghost predicate Lists(items: seq<Json>, suffix: bool, n: nat, list: seq<string>)
    requires n <= |items|
  {
    && Distinct(list)
    && (forall i :: 0 <= i < |list| ==> IsValidEntry(suffix, list[i]))
    && (forall i :: 0 <= i < n ==> items[i].JStr? && Lower(items[i].s) in list)
  }

  lemma ListsNext(items: seq<Json>, suffix: bool, n: nat, list: seq<string>)
    requires n < |items| && Lists(items, suffix, n, list) && items[n].JStr? && IsValidEntry(suffix, Lower(items[n].s))
    ensures var s := Lower(items[n].s); Lists(items, suffix, n + 1, if s in list then list else list + [s])
  {
    var s := Lower(items[n].s);
    if s !in list {
      DistinctSnoc(list, s);
      ValidSnoc(suffix, list, s);
      forall i | 0 <= i < n + 1 ensures Lower(items[i].s) in list + [s] {}
    }
  }

  lemma ValidSnoc(suffix: bool, list: seq<string>, s: string)
    requires IsValidEntry(suffix, s) && forall i :: 0 <= i < |list| ==> IsValidEntry(suffix, list[i])
    ensures forall i :: 0 <= i < |list + [s]| ==> IsValidEntry(suffix, (list + [s])[i])
  {
  }

  ghost predicate Distinct(list: seq<string>) {
    forall i, j :: 0 <= i < j < |list| ==> list[i] != list[j]
  }

  lemma DistinctSnoc(list: seq<string>, s: string)
    requires Distinct(list)
    ensures s !in list ==> Distinct(list + [s])
  {
  }

  /** Nothing is listed that was not in the document. */
  lemma {:induction false} EntriesFrom(items: seq<Json>, suffix: bool, n: nat, s: string)
    requires n <= |items| && Entries(items, suffix, n).Ok? && s in Entries(items, suffix, n).value
    ensures exists i :: 0 <= i < n && items[i].JStr? && Lower(items[i].s) == s
  {
    var before, item := Entries(items, suffix, n - 1).value, items[n - 1];
    if s in before {
      EntriesFrom(items, suffix, n - 1, s);
    } else {
      assert Lower(item.s) == s;
    }
  }

  /** Reading back a list of distinct valid entries changes nothing. */
  lemma {:induction false} EntriesOfStrings(ss: seq<string>, suffix: bool, n: nat)
    requires n <= |ss| && Distinct(ss)
    requires forall i :: 0 <= i < |ss| ==> IsValidEntry(suffix, ss[i]) && Lower(ss[i]) == ss[i]
    ensures Entries(Strings(ss), suffix, n) == Ok(ss[..n])
  {
    if n > 0 {
      EntriesOfStrings(ss, suffix, n - 1);
      NewLast(ss, n - 1);
      StringsNext(ss, suffix, n - 1);
    }
  }

  lemma StringsNext(ss: seq<string>, suffix: bool, n: nat)
    requires n < |ss| && Entries(Strings(ss), suffix, n) == Ok(ss[..n])
    requires IsValidEntry(suffix, ss[n]) && Lower(ss[n]) == ss[n] && ss[n] !in ss[..n]
    ensures Entries(Strings(ss), suffix, n + 1) == Ok(ss[..n] + [ss[n]])
  {
    EntriesNext(Strings(ss), suffix, n);
  }

  lemma NewLast(ss: seq<string>, n: nat)
    requires n < |ss| && Distinct(ss)
    ensures ss[n] !in ss[..n] && ss[..n + 1] == ss[..n] + [ss[n]]
  {
  }

  lemma ValidIsLower(suffix: bool, s: string)
    requires IsValidEntry(suffix, s)
    ensures Lower(s) == s
  {
    if suffix {
      HostnameIsLower(s[1..]);
      assert s == ['.'] + s[1..];
      assert forall i :: 0 < i < |s| ==> LowerChar(s[i]) == s[1..][i - 1];
    } else {
      HostnameIsLower(s);
    }
  }

  lemma HostnameIsLower(h: string)
    requires IsValidHostname(h)
    ensures Lower(h) == h && forall i :: 0 <= i < |h| ==> LowerChar(h[i]) == h[i]
  {
    forall i | 0 <= i < |h| ensures LowerChar(h[i]) == h[i] {
      SplitKeeps(h, '.', i);
      if h[i] != '.' {
        var k :| 0 <= k < |Split(h, '.')| && h[i] in Split(h, '.')[k];
        assert IsLabel(Split(h, '.')[k]);
      }
    }
  }

  lemma HostListIs(v: Option<Json>, suffix: bool)
    requires HostList(v, suffix).Ok?
    ensures var list := HostList(v, suffix).value;
      && Distinct(list)
      && (forall i :: 0 <= i < |list| ==> IsValidEntry(suffix, list[i]))
      && Entries(Strings(list), suffix, |list|) == Ok(list)
  {
    if !Nullish(v) {
      EntriesAre(v.value.items, suffix, |v.value.items|);
    }
    var list := HostList(v, suffix).value;
    forall i | 0 <= i < |list| ensures Lower(list[i]) == list[i] { ValidIsLower(suffix, list[i]); }
    EntriesOfStrings(list, suffix, |list|);
    assert list[..|list|] == list;
  }

  /** A policy the host accepts is normal: entries valid, distinct, suffixes dotted. */
  lemma AcceptedIsNormal(raw: Json)
    requires LoadEgress(raw).Ok?
    ensures var p := LoadEgress(raw).value;
      && SuffixesDotted(p)
      && (forall i :: 0 <= i < |p.allowedHosts| ==> IsValidHostname(p.allowedHosts[i]))
      && (forall i :: 0 <= i < |p.allowedHostSuffixes| ==> IsValidSuffix(p.allowedHostSuffixes[i]))
  {
    HostListIs(Field(raw, "allowedHosts"), false);
    HostListIs(Field(raw, "allowedHostSuffixes"), true);
  }

  /** An accepted policy survives serialisation and the container's loader unchanged. */
  lemma RoundTrip(raw: Json)
    requires LoadEgress(raw).Ok?
    ensures LoadContainer(Serialize(LoadEgress(raw).value)) == Ok(LoadEgress(raw).value.(egressLogPath := None))
  {
    HostListIs(Field(raw, "allowedHosts"), false);
    HostListIs(Field(raw, "allowedHostSuffixes"), true);
    SerializeFields(LoadEgress(raw).value);
  }

  lemma SerializeFields(p: Policy)
    ensures var json := Serialize(p);
      && Field(json, "allowedHosts") == Some(JArr(Strings(p.allowedHosts)))
      && Field(json, "allowedHostSuffixes") == Some(JArr(Strings(p.allowedHostSuffixes)))
      && Field(json, "defaultPolicy") == Some(JStr("deny"))
  {
  }

  /** Hence host and container decide every host name alike. */
  lemma MatchersAgree(raw: Json, host: string)
    requires LoadEgress(raw).Ok?
    ensures LoadContainer(Serialize(LoadEgress(raw).value)).Ok?
    ensures Scanned(LoadContainer(Serialize(LoadEgress(raw).value)).value, host) <==>
      Scanned(LoadEgress(raw).value, host)
    ensures Scanned(LoadEgress(raw).value, host) <==> Allows(LoadEgress(raw).value, host)
  {
    RoundTrip(raw);
    AcceptedIsNormal(raw);
    ScanIsByLabels(LoadEgress(raw).value, host);
  }

  /**
    On raw documents the copies differ: the container takes a list that is not an
    array as empty and skips the log path.
   */
  lemma HostAcceptsIff(raw: Json)
    requires raw.JObj?
    ensures LoadEgress(raw).Ok? <==>
      && LoadContainer(raw).Ok?
      && (Nullish(Field(raw, "allowedHosts")) || Field(raw, "allowedHosts").value.JArr?)
      && (Nullish(Field(raw, "allowedHostSuffixes")) || Field(raw, "allowedHostSuffixes").value.JArr?)
      && LogPathOk(Field(raw, "egressLogPath"))
    ensures LoadEgress(raw).Ok? ==> LoadContainer(raw).value == LoadEgress(raw).value.(egressLogPath := None)
  {
  }

  /** Such a document: a host list that is a string. */
  lemma ContainerAcceptsMore() returns (raw: Json)
    ensures LoadContainer(raw).Ok? && LoadEgress(raw).Violation?
  {
    raw := JObj(map["defaultPolicy" := JStr("deny"), "allowedHosts" := JStr("api.example.com")]);
    assert Field(raw, "defaultPolicy") == Some(JStr("deny"));
    assert Field(raw, "allowedHosts") == Some(JStr("api.example.com"));
    assert Field(raw, "allowedHostSuffixes") == None;
  }
}
