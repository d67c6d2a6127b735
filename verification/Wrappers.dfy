/**
  Small shared types and the order on strings.
 */
module Wrappers {
  datatype Option<T> = None | Some(value: T)
}

/** Strings compared character by character, as JavaScript's `<` and `Array.prototype.sort` do. */
module StringOrder {

  predicate Less(s: string, t: string) {
    t != [] && (s == [] || s[0] < t[0] || (s[0] == t[0] && Less(s[1..], t[1..])))
  }

  /** A strict total order. */
  lemma {:induction false} LessOrder(s: string, t: string, u: string)
    ensures s == t || Less(s, t) || Less(t, s)
    ensures !(Less(s, t) && Less(t, s)) && !Less(s, s)
    ensures Less(s, t) && Less(t, u) ==> Less(s, u)
    decreases |s| + |t| + |u|
  {
    if s != [] && t != [] {
      assert s == [s[0]] + s[1..] && t == [t[0]] + t[1..];
      LessOrder(s[1..], t[1..], if u == [] then [] else u[1..]);
    } else if s != [] {
      LessOrder(s[1..], [], []);
    }
  }
}
