/**
  `normalizeValue` of packages/watchdog/src/canonicalize.ts: the normal form of
  tool arguments, and exactly which differences it forgets.

  An object is the list of its own properties in enumeration order. JavaScript
  enumerates array-index keys first, in numeric order, and then the other keys
  in the order they were added.
 */
module Canonicalize {
  import opened StringOrder
  import opened Whitespace

  datatype Value =
    | Undefined
    | Null
    | Unsupported  // functions, symbols and bigints
    | Str(s: string)
    | Num(n: real)
    | Bool(b: bool)
    | Arr(items: seq<Value>)
    | Obj(entries: seq<Entry>)

  datatype Entry = Entry(key: string, value: Value)

  // ----- keys ---------------------------------------------------------------

  predicate Digits(k: string) {
    forall i :: 0 <= i < |k| ==> '0' <= k[i] <= '9'
  }

  /** A canonical array index: a decimal number below 2^32 - 1 without leading zeros. */
  predicate IsIndex(k: string) {
    && k != [] && Digits(k) && (k == "0" || k[0] != '0')
    && (|k| < 10 || (|k| == 10 && Less(k, "4294967295")))
  }

  /** Enumeration order of keys that were added in code unit order. */
  predicate Precedes(a: string, b: string) {
    if IsIndex(a) && IsIndex(b) then |a| < |b| || (|a| == |b| && Less(a, b))
    else if IsIndex(a) || IsIndex(b) then IsIndex(a)
    else Less(a, b)
  }

  // ----- the code -----------------------------------------------------------

  function Insert(e: Entry, es: seq<Entry>): seq<Entry> {
    if es == [] || Less(e.key, es[0].key) then [e] + es else [es[0]] + Insert(e, es[1..])
  }

  /** The properties in code unit order of their keys. */
  function SortKeys(es: seq<Entry>): seq<Entry> {
    if es == [] then [] else Insert(es[0], SortKeys(es[1..]))
  }

  /**
    `obj[key] = value` on a plain object: `__proto__` is not an own property, an
    index key goes among the index keys.
   */
  function SetProperty(obj: seq<Entry>, e: Entry): seq<Entry> {
    if e.key == "__proto__" then obj
    else Place(obj, e)
  }

  function Place(obj: seq<Entry>, e: Entry): seq<Entry> {
    if obj == [] then [e]
    else if obj[0].key == e.key then [e] + obj[1..]
    else if IsIndex(e.key) && Precedes(e.key, obj[0].key) then [e] + obj
    else [obj[0]] + Place(obj[1..], e)
  }

  /** The object filled with the first `n` properties of a list. */
  function Filled(es: seq<Entry>, n: nat): seq<Entry>
    requires n <= |es|
  {
    if n == 0 then [] else SetProperty(Filled(es, n - 1), es[n - 1])
  }

  function Canonical(es: seq<Entry>): seq<Entry> {
    Filled(SortKeys(es), |SortKeys(es)|)
  }

  function Normalize(v: Value): Value
    decreases v
  {
    match v
    case Str(s) => Str(Collapse(s))
    case Num(_) => v
    case Bool(_) => v
    case Arr(items) => Arr(seq(|items|, i requires 0 <= i < |items| => Normalize(items[i])))
    case Obj(es) => Obj(Canonical(NormalizeEntries(v, es)))
    case _ => Null
  }

  function NormalizeEntries(v: Value, es: seq<Entry>): (r: seq<Entry>)
    requires forall i :: 0 <= i < |es| ==> es[i] < v
    ensures |r| == |es| && forall i :: 0 <= i < |es| ==> r[i] == Entry(es[i].key, Normalize(es[i].value))
    decreases v, 0
  {
    seq(|es|, i requires 0 <= i < |es| => Entry(es[i].key, Normalize(es[i].value)))
  }

  /** The loop that fills the sorted object. */
  method FillSorted(es: seq<Entry>) returns (obj: seq<Entry>)
    ensures obj == Canonical(es)
  {
    var keys := SortKeys(es);
    obj := [];
    for i := 0 to |keys|
      invariant obj == Filled(keys, i)
    {
      obj := SetProperty(obj, keys[i]);
    }
  }

  // ----- what the normal form forgets ---------------------------------------

  predicate NullLike(v: Value) {
    v.Undefined? || v.Null? || v.Unsupported?
  }

  /** Own keys are distinct, all the way down. */
  ghost predicate WellFormed(v: Value)
    decreases v
  {
    match v
    case Arr(items) => forall i :: 0 <= i < |items| ==> WellFormed(items[i])
    case Obj(es) => DistinctKeys(es) && forall i :: 0 <= i < |es| ==> WellFormed(es[i].value)
    case _ => true
  }

  ghost predicate DistinctKeys(es: seq<Entry>) {
    forall i, j :: 0 <= i < j < |es| ==> es[i].key != es[j].key
  }

  /** Every property of `es` other than `__proto__` has an equivalent one in `fs`. */
  ghost predicate EntriesWithin(v: Value, es: seq<Entry>, fs: seq<Entry>)
    requires forall i :: 0 <= i < |es| ==> es[i] < v
    decreases v, 0
  {
    forall i :: 0 <= i < |es| && es[i].key != "__proto__" ==>
      exists j :: 0 <= j < |fs| && fs[j].key == es[i].key && Equivalent(es[i].value, fs[j].value)
  }

  ghost predicate KeysWithin(es: seq<Entry>, fs: seq<Entry>) {
    forall i :: 0 <= i < |es| && es[i].key != "__proto__" ==> exists j :: 0 <= j < |fs| && fs[j].key == es[i].key
  }

  /** Equal up to key order, `__proto__` properties, whitespace in strings and the kind of null-like leaf. */
  ghost predicate Equivalent(v: Value, w: Value)
    decreases v
  {
    if NullLike(v) || NullLike(w) then NullLike(v) && NullLike(w)
    else match v
      case Str(s) => w.Str? && SameWords(s, w.s)
      case Arr(items) => w.Arr? && |items| == |w.items| && forall i :: 0 <= i < |items| ==>
        Equivalent(items[i], w.items[i])
      case Obj(es) => w.Obj? && EntriesWithin(v, es, w.entries) && KeysWithin(w.entries, es)
      case _ => v == w
  }

  // ----- the two orders on keys ---------------------------------------------

  lemma PrecedesOrder(a: string, b: string, c: string)
    ensures a == b || Precedes(a, b) || Precedes(b, a)
    ensures !(Precedes(a, b) && Precedes(b, a)) && !Precedes(a, a)
    ensures Precedes(a, b) && Precedes(b, c) ==> Precedes(a, c)
  {
    LessOrder(a, b, c);
  }

  // ----- sorting and filling ------------------------------------------------

  ghost predicate SortedKeys(es: seq<Entry>) {
    forall i, j :: 0 <= i < j < |es| ==> Less(es[i].key, es[j].key)
  }

  ghost predicate Ordered(es: seq<Entry>) {
    forall i, j :: 0 <= i < j < |es| ==> Precedes(es[i].key, es[j].key)
  }

  lemma {:induction false} InsertIs(e: Entry, es: seq<Entry>)
    requires SortedKeys(es) && forall k :: 0 <= k < |es| ==> es[k].key != e.key
    ensures SortedKeys(Insert(e, es))
    ensures forall f :: f in Insert(e, es) <==> f == e || f in es
  {
    if es != [] {
      var rest := es[1..];
      assert es == [es[0]] + rest;
      LessOrder(e.key, es[0].key, e.key);
      if Less(e.key, es[0].key) {
        forall k | 0 <= k < |es| ensures Less(e.key, es[k].key) { LessOrder(e.key, es[0].key, es[k].key); }
      } else {
        InsertIs(e, rest);
        forall k | 0 <= k < |Insert(e, rest)| ensures Less(es[0].key, Insert(e, rest)[k].key) {
          assert Insert(e, rest)[k] in Insert(e, rest);
        }
      }
    }
  }

  lemma {:induction false} SortKeysIs(es: seq<Entry>)
    requires DistinctKeys(es)
    ensures SortedKeys(SortKeys(es))
    ensures forall f :: f in SortKeys(es) <==> f in es
  {
    if es != [] {
      var rest, sorted := es[1..], SortKeys(es[1..]);
      SortKeysIs(rest);
      assert es == [es[0]] + rest;
      forall k | 0 <= k < |sorted| ensures sorted[k].key != es[0].key {
        assert sorted[k] in sorted;
        var q :| 0 <= q < |rest| && rest[q] == sorted[k];
        assert es[q + 1] == rest[q];
      }
      InsertIs(es[0], sorted);
    }
  }

  lemma {:induction false} PlaceIs(obj: seq<Entry>, e: Entry)
    requires Ordered(obj) && forall k :: 0 <= k < |obj| ==> obj[k].key != e.key
    requires !IsIndex(e.key) ==> forall k :: 0 <= k < |obj| ==> Precedes(obj[k].key, e.key)
    ensures Ordered(Place(obj, e))
    ensures forall f :: f in Place(obj, e) <==> f == e || f in obj
  {
    if obj != [] {
      var rest := obj[1..];
      assert obj == [obj[0]] + rest;
      PrecedesOrder(e.key, obj[0].key, e.key);
      if IsIndex(e.key) && Precedes(e.key, obj[0].key) {
        forall k | 0 <= k < |obj| ensures Precedes(e.key, obj[k].key) { PrecedesOrder(e.key, obj[0].key, obj[k].key); }
      } else {
        PlaceIs(rest, e);
        forall k | 0 <= k < |Place(rest, e)| ensures Precedes(obj[0].key, Place(rest, e)[k].key) {
          assert Place(rest, e)[k] in Place(rest, e);
        }
      }
    }
  }

  lemma {:induction false} FilledIs(es: seq<Entry>, n: nat)
    requires SortedKeys(es) && n <= |es|
    ensures Ordered(Filled(es, n))
    ensures forall f :: f in Filled(es, n) <==> f in es[..n] && f.key != "__proto__"
  {
    if n > 0 {
      var obj, e := Filled(es, n - 1), es[n - 1];
      FilledIs(es, n - 1);
      assert es[..n] == es[..n - 1] + [e];
      forall k | 0 <= k < |obj| ensures obj[k].key != e.key && (!IsIndex(e.key) ==> Precedes(obj[k].key, e.key)) {
        assert obj[k] in obj;
        var q :| 0 <= q < |es[..n - 1]| && es[..n - 1][q] == obj[k];
        assert Less(es[q].key, e.key);
        LessOrder(es[q].key, e.key, e.key);
      }
      if e.key != "__proto__" { PlaceIs(obj, e); }
    }
  }

  lemma CanonicalIs(es: seq<Entry>)
    requires DistinctKeys(es)
    ensures Ordered(Canonical(es))
    ensures forall f :: f in Canonical(es) <==> f in es && f.key != "__proto__"
  {
    SortKeysIs(es);
    var sorted := SortKeys(es);
    FilledIs(sorted, |sorted|);
    assert sorted[..|sorted|] == sorted;
  }

  /** An ordered property list is determined by its properties. */
  lemma {:induction false} OrderedUnique(a: seq<Entry>, b: seq<Entry>)
    requires Ordered(a) && Ordered(b) && forall f :: f in a <==> f in b
    ensures a == b
  {
    if a == [] || b == [] {
      HasMember(a);
      HasMember(b);
    } else {
      var a', b' := a[1..], b[1..];
      assert a == [a[0]] + a' && b == [b[0]] + b';
      assert a[0] in a && b[0] in b;
      PrecedesOrder(a[0].key, b[0].key, a[0].key);
      assert a[0] == b[0];
      forall f ensures f in a' <==> f in b' {
        HeadNotInTail(a, f);
        HeadNotInTail(b, f);
      }
      OrderedUnique(a', b');
    }
  }

  lemma HasMember(a: seq<Entry>)
    ensures a != [] ==> exists f :: f in a
  {
    if a != [] { assert a[0] in a; }
  }

  lemma HeadNotInTail(a: seq<Entry>, f: Entry)
    requires Ordered(a) && a != []
    ensures f in a[1..] <==> f in a && f != a[0]
  {
    PrecedesOrder(a[0].key, a[0].key, a[0].key);
    assert a == [a[0]] + a[1..];
    forall k | 0 <= k < |a[1..]| ensures a[1..][k] != a[0] { assert Precedes(a[0].key, a[k + 1].key); }
  }

  /** The same properties, `__proto__` aside. */
  ghost predicate SameProperties(ns: seq<Entry>, ms: seq<Entry>) {
    forall f: Entry :: f.key != "__proto__" ==> (f in ns <==> f in ms)
  }

  /** Two property lists fill to the same object exactly when they hold the same properties, `__proto__` aside. */
  lemma CanonicalIff(es: seq<Entry>, fs: seq<Entry>)
    requires DistinctKeys(es) && DistinctKeys(fs)
    ensures Canonical(es) == Canonical(fs) <==> SameProperties(es, fs)
  {
    CanonicalIs(es);
    CanonicalIs(fs);
    if SameProperties(es, fs) {
      OrderedUnique(Canonical(es), Canonical(fs));
    } else {
      var f: Entry :| f.key != "__proto__" && (f in es) != (f in fs);
      assert (f in Canonical(es)) != (f in Canonical(fs));
    }
  }

  // ----- the main results ---------------------------------------------------

  lemma NormalizedKeysDistinct(v: Value, es: seq<Entry>)
    requires (forall i :: 0 <= i < |es| ==> es[i] < v) && DistinctKeys(es)
    ensures DistinctKeys(NormalizeEntries(v, es))
  {
  }

  /** The value lemma for every pair of properties. */
  ghost predicate ValuesAgree(es: seq<Entry>, fs: seq<Entry>) {
    forall i, j :: 0 <= i < |es| && 0 <= j < |fs| ==>
      (Normalize(es[i].value) == Normalize(fs[j].value) <==> Equivalent(es[i].value, fs[j].value))
  }

  /** `ns` holds the properties of `es` with their values normalised. */
  ghost predicate NormalizedOf(ns: seq<Entry>, es: seq<Entry>) {
    |ns| == |es| && forall i :: 0 <= i < |es| ==> ns[i] == Entry(es[i].key, Normalize(es[i].value))
  }

  predicate InRange(i: int, es: seq<Entry>) {
    0 <= i < |es|
  }

  ghost predicate AllIn(ns: seq<Entry>, ms: seq<Entry>) {
    forall i {:trigger InRange(i, ns)} :: InRange(i, ns) && ns[i].key != "__proto__" ==> ns[i] in ms
  }

  /** `EntriesWithin` without the tree the properties come from. */
  ghost predicate Matched(es: seq<Entry>, fs: seq<Entry>) {
    forall i {:trigger InRange(i, es)} :: InRange(i, es) && es[i].key != "__proto__" ==>
      exists j :: 0 <= j < |fs| && fs[j].key == es[i].key && Equivalent(es[i].value, fs[j].value)
  }

  lemma SamePropertiesEquivalent(es: seq<Entry>, fs: seq<Entry>, ns: seq<Entry>, ms: seq<Entry>)
    requires ValuesAgree(es, fs) && NormalizedOf(ns, es) && NormalizedOf(ms, fs) && SameProperties(ns, ms)
    ensures Matched(es, fs) && KeysWithin(fs, es)
  {
    forall i | 0 <= i < |es| && es[i].key != "__proto__"
      ensures exists j :: 0 <= j < |fs| && fs[j].key == es[i].key && Equivalent(es[i].value, fs[j].value)
    {
      assert ns[i] in ns;
      var j :| 0 <= j < |ms| && ms[j] == ns[i];
      assert fs[j].key == es[i].key;
    }
    forall j | 0 <= j < |fs| && fs[j].key != "__proto__" ensures exists i :: 0 <= i < |es| && es[i].key == fs[j].key {
      assert ms[j] in ms;
      var i :| 0 <= i < |ns| && ns[i] == ms[j];
      assert es[i].key == fs[j].key;
    }
  }

  lemma EquivalentSameProperties(es: seq<Entry>, fs: seq<Entry>, ns: seq<Entry>, ms: seq<Entry>)
    requires DistinctKeys(fs) && ValuesAgree(es, fs) && NormalizedOf(ns, es) && NormalizedOf(ms, fs)
    requires Matched(es, fs) && KeysWithin(fs, es)
    ensures SameProperties(ns, ms)
  {
    forall i | InRange(i, ns) && ns[i].key != "__proto__" ensures ns[i] in ms {
      var j := Partner(es, fs, ns, ms, i);
    }
    SameKeys(es, fs, ns, ms);
    forall f: Entry | f.key != "__proto__" ensures f in ns <==> f in ms {
      if f in ms { FoundLeft(ns, ms, f); }
      if f in ns {
        var i :| 0 <= i < |ns| && ns[i] == f;
        assert InRange(i, ns);
      }
    }
  }

  lemma SameKeys(es: seq<Entry>, fs: seq<Entry>, ns: seq<Entry>, ms: seq<Entry>)
    requires NormalizedOf(ns, es) && NormalizedOf(ms, fs) && DistinctKeys(fs) && KeysWithin(fs, es)
    ensures DistinctKeys(ms) && KeysWithin(ms, ns)
  {
    forall j | 0 <= j < |ms| && ms[j].key != "__proto__" ensures exists i :: 0 <= i < |ns| && ns[i].key == ms[j].key {
      var i :| 0 <= i < |es| && es[i].key == fs[j].key;
      assert ns[i].key == ms[j].key;
    }
  }

  lemma FoundLeft(ns: seq<Entry>, ms: seq<Entry>, f: Entry)
    requires DistinctKeys(ms) && KeysWithin(ms, ns) && f in ms && f.key != "__proto__"
    requires AllIn(ns, ms)
    ensures f in ns
  {
    var j :| 0 <= j < |ms| && ms[j] == f;
    var i :| 0 <= i < |ns| && ns[i].key == ms[j].key;
    assert InRange(i, ns);
    var k :| 0 <= k < |ms| && ms[k] == ns[i];
    assert k == j;
  }

  lemma Partner(es: seq<Entry>, fs: seq<Entry>, ns: seq<Entry>, ms: seq<Entry>, i: nat) returns (j: nat)
    requires ValuesAgree(es, fs) && i < |es| && es[i].key != "__proto__"
    requires NormalizedOf(ns, es) && NormalizedOf(ms, fs) && Matched(es, fs)
    ensures j < |ms| && ms[j] == ns[i] && fs[j].key == es[i].key
  {
    assert InRange(i, es);
    var k :| 0 <= k < |fs| && fs[k].key == es[i].key && Equivalent(es[i].value, fs[k].value);
    j := k;
    assert Normalize(es[i].value) == Normalize(fs[j].value);
  }

  /** Two argument trees have the same normal form exactly when they are equivalent. */
  lemma {:induction false} NormalFormIff(v: Value, w: Value)
    requires WellFormed(v) && WellFormed(w)
    ensures Normalize(v) == Normalize(w) <==> Equivalent(v, w)
    decreases v
  {
    if NullLike(v) || NullLike(w) {
    } else if v.Str? && w.Str? {
      CollapseIff(v.s, w.s);
    } else if v.Arr? && w.Arr? {
      ArraysIff(v, w);
    } else if v.Obj? && w.Obj? {
      forall i, j | 0 <= i < |v.entries| && 0 <= j < |w.entries|
        ensures Normalize(v.entries[i].value) == Normalize(w.entries[j].value) <==>
          Equivalent(v.entries[i].value, w.entries[j].value)
      {
        NormalFormIff(v.entries[i].value, w.entries[j].value);
      }
      ObjectsIff(v, w);
    }
  }

  lemma NormalizeObj(v: Value) returns (ns: seq<Entry>)
    requires v.Obj? && DistinctKeys(v.entries)
    ensures Normalize(v) == Obj(Canonical(ns)) && NormalizedOf(ns, v.entries) && DistinctKeys(ns)
  {
    ns := NormalizeEntries(v, v.entries);
  }

  lemma EquivalentObjs(v: Value, w: Value)
    requires v.Obj? && w.Obj?
    ensures Equivalent(v, w) <==> Matched(v.entries, w.entries) && KeysWithin(w.entries, v.entries)
  {
    var es, fs := v.entries, w.entries;
    assert EntriesWithin(v, es, fs) <==> Matched(es, fs) by {
      forall i | 0 <= i < |es| && es[i].key != "__proto__" && Matched(es, fs)
        ensures exists j :: 0 <= j < |fs| && fs[j].key == es[i].key && Equivalent(es[i].value, fs[j].value)
      {
        assert InRange(i, es);
      }
    }
  }

  lemma ObjectsIff(v: Value, w: Value)
    requires v.Obj? && w.Obj? && DistinctKeys(v.entries) && DistinctKeys(w.entries) && ValuesAgree(v.entries, w.entries)
    ensures Normalize(v) == Normalize(w) <==> Equivalent(v, w)
  {
    var ns := NormalizeObj(v);
    var ms := NormalizeObj(w);
    CanonicalIff(ns, ms);
    EquivalentObjs(v, w);
    EntriesIff(v.entries, w.entries, ns, ms);
  }

  lemma EntriesIff(es: seq<Entry>, fs: seq<Entry>, ns: seq<Entry>, ms: seq<Entry>)
    requires DistinctKeys(fs) && ValuesAgree(es, fs) && NormalizedOf(ns, es) && NormalizedOf(ms, fs)
    ensures SameProperties(ns, ms) <==> Matched(es, fs) && KeysWithin(fs, es)
  {
    if SameProperties(ns, ms) {
      SamePropertiesEquivalent(es, fs, ns, ms);
    }
    if Matched(es, fs) && KeysWithin(fs, es) {
      EquivalentSameProperties(es, fs, ns, ms);
    }
  }

  lemma ArraysIff(v: Value, w: Value)
    requires WellFormed(v) && WellFormed(w) && v.Arr? && w.Arr?
    ensures Normalize(v) == Normalize(w) <==> Equivalent(v, w)
    decreases v, 0
  {
    var a, b := v.items, w.items;
    if |a| == |b| {
      forall i | 0 <= i < |a| ensures Normalize(a[i]) == Normalize(b[i]) <==> Equivalent(a[i], b[i]) {
        NormalFormIff(a[i], b[i]);
      }
      var na, nb := Normalize(v).items, Normalize(w).items;
      assert forall i :: 0 <= i < |a| ==> na[i] == Normalize(a[i]) && nb[i] == Normalize(b[i]);
      if Normalize(v) == Normalize(w) {
        assert forall i :: 0 <= i < |a| ==> na[i] == nb[i];
      }
      if Equivalent(v, w) { assert na == nb; }
    } else {
      assert |Normalize(v).items| == |a| && |Normalize(w).items| == |b|;
    }
  }

  /** Normalising twice changes nothing more. */
  lemma {:induction false} NormalizeIdempotent(v: Value)
    requires WellFormed(v)
    ensures Normalize(Normalize(v)) == Normalize(v)
    decreases v
  {
    match v
    case Str(s) => CollapseIdempotent(s);
    case Arr(items) =>
      forall i | 0 <= i < |items| ensures Normalize(Normalize(items[i])) ==
        Normalize(items[i]) { NormalizeIdempotent(items[i]); }
      var once := Normalize(v);
      assert forall i :: 0 <= i < |items| ==> once.items[i] == Normalize(items[i]);
      assert Normalize(once).items == once.items;
    case Obj(es) =>
      forall i | 0 <= i < |es| ensures Normalize(Normalize(es[i].value)) == Normalize(es[i].value) {
        NormalizeIdempotent(es[i].value);
      }
      NormalizedKeysDistinct(v, es);
      CanonicalStable(v, es);
    case _ =>
  }

  lemma CanonicalStable(v: Value, es: seq<Entry>)
    requires v == Obj(es) && DistinctKeys(NormalizeEntries(v, es))
    requires forall i :: 0 <= i < |es| ==> Normalize(Normalize(es[i].value)) == Normalize(es[i].value)
    ensures Normalize(Normalize(v)) == Normalize(v)
  {
    var ns := NormalizeEntries(v, es);
    CanonicalIs(ns);
    var once := Normalize(v);
    var os := once.entries;
    forall i | 0 <= i < |os| ensures Entry(os[i].key, Normalize(os[i].value)) == os[i] {
      assert os[i] in os;
      var q :| 0 <= q < |ns| && ns[q] == os[i];
    }
    assert NormalizeEntries(once, os) == os;
    OrderedIsDistinct(os);
    CanonicalIs(os);
    OrderedUnique(Canonical(os), os);
  }

  lemma OrderedIsDistinct(os: seq<Entry>)
    requires Ordered(os)
    ensures DistinctKeys(os)
  {
    forall i, j | 0 <= i < j < |os| ensures os[i].key != os[j].key {
      PrecedesOrder(os[i].key, os[j].key, os[j].key);
    }
  }

  /** A property named `__proto__` leaves no trace, whatever its value. */
  lemma ProtoIsDropped(v: Value)
    ensures Normalize(Obj([Entry("__proto__", v)])) == Normalize(Obj([]))
  {
    var o, e := Obj([Entry("__proto__", v)]), Obj([]);
    ProtoFills(NormalizeEntries(o, o.entries), NormalizeEntries(e, e.entries));
  }

  lemma ProtoFills(ns: seq<Entry>, none: seq<Entry>)
    requires |ns| == 1 && ns[0].key == "__proto__" && none == []
    ensures Canonical(ns) == Canonical(none)
  {
    CanonicalIff(ns, none);
  }
}
