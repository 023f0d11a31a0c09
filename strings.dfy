/** Sequence helpers shared by the cleaner, the extractor and the summary view:
    order-preserving filtering, Python's `sep.join(parts)`, and `s.split(c)`
    as the inverse of joining with a one-character separator. */
module Strings {

  /** The elements of `s` that satisfy `p`, in their original order. */
  function Filter<T>(p: T -> bool, s: seq<T>): (r: seq<T>)
    ensures |r| <= |s|
    ensures forall i :: 0 <= i < |r| ==> p(r[i])
  {
    if s == [] then [] else (if p(s[0]) then [s[0]] else []) + Filter(p, s[1..])
  }

  /** An element is kept exactly when it occurs in the input and passes. */
  lemma {:induction false} FilterMembership<T>(p: T -> bool, s: seq<T>, x: T)
    ensures x in Filter(p, s) <==> x in s && p(x)
  {
    if s != [] {
      FilterMembership(p, s[1..], x);
      assert s == [s[0]] + s[1..];
    }
  }

  /** Nothing is kept when no element passes. */
  lemma {:induction false} FilterKeepsNone<T>(p: T -> bool, s: seq<T>)
    requires forall i :: 0 <= i < |s| ==> !p(s[i])
    ensures Filter(p, s) == []
  {
    if s != [] {
      FilterKeepsNone(p, s[1..]);
    }
  }

  /** Filtering distributes over concatenation: kept elements stay in order. */
  lemma {:induction false} FilterConcat<T>(p: T -> bool, a: seq<T>, b: seq<T>)
    ensures Filter(p, a + b) == Filter(p, a) + Filter(p, b)
  {
    if a == [] {
      assert a + b == b;
    } else {
      assert (a + b)[0] == a[0];
      assert (a + b)[1..] == a[1..] + b;
      FilterConcat(p, a[1..], b);
    }
  }

  /** Python's `sep.join(parts)`: the parts with `sep` between neighbours. */
  function Join<T>(sep: seq<T>, parts: seq<seq<T>>): seq<T>
  {
    if parts == [] then []
    else if |parts| == 1 then parts[0]
    else parts[0] + sep + Join(sep, parts[1..])
  }

  /** Joining two non-empty runs of parts is joining each and gluing with `sep`. */
  lemma {:induction false} JoinConcat<T>(sep: seq<T>, a: seq<seq<T>>, b: seq<seq<T>>)
    requires a != [] && b != []
    ensures Join(sep, a + b) == Join(sep, a) + sep + Join(sep, b)
  {
    assert (a + b)[0] == a[0];
    if |a| > 1 {
      assert (a + b)[1..] == a[1..] + b;
      JoinConcat(sep, a[1..], b);
    } else {
      assert (a + b)[1..] == b;
    }
  }

  /** Python's `s.split(sep)` for a one-character separator: the maximal
      separator-free pieces, empty ones included; `"".split(sep)` is `[""]`. */
  function Split<T(==)>(sep: T, s: seq<T>): (r: seq<seq<T>>)
    ensures |r| >= 1
  {
    if s == [] then [[]]
    else
      var rest := Split(sep, s[1..]);
      if s[0] == sep then [[]] + rest else [[s[0]] + rest[0]] + rest[1..]
  }

  lemma {:induction false} SplitWithoutSeparator<T>(sep: T, p: seq<T>)
    requires sep !in p
    ensures Split(sep, p) == [p]
  {
    if p != [] {
      SplitWithoutSeparator(sep, p[1..]);
      assert [p[0]] + p[1..] == p;
    }
  }

  lemma {:induction false} SplitAtFirstSeparator<T>(sep: T, p: seq<T>, t: seq<T>)
    requires sep !in p
    ensures Split(sep, p + [sep] + t) == [p] + Split(sep, t)
  {
    var s := p + [sep] + t;
    if p == [] {
      assert s[1..] == t;
    } else {
      assert s[1..] == p[1..] + [sep] + t;
      SplitAtFirstSeparator(sep, p[1..], t);
      assert [p[0]] + p[1..] == p;
    }
  }

  /** Splitting undoes a one-character join when no part holds the separator. */
  lemma {:induction false} SplitJoin<T>(sep: T, parts: seq<seq<T>>)
    requires parts != []
    requires forall i :: 0 <= i < |parts| ==> sep !in parts[i]
    ensures Split(sep, Join([sep], parts)) == parts
  {
    if |parts| == 1 {
      SplitWithoutSeparator(sep, parts[0]);
    } else {
      SplitJoin(sep, parts[1..]);
      SplitAtFirstSeparator(sep, parts[0], Join([sep], parts[1..]));
      assert [parts[0]] + parts[1..] == parts;
    }
  }
}
