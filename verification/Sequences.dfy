/** Sequence operations the rest of the model is written with.  `Split` is
    Rust's `str::split` (leftmost, non-overlapping matches); it is generic
    because the book adapter also splits a list of lines at blank lines. */
module Sequences {

  datatype Option<+T> = None | Some(value: T)

  datatype Result<+T, +E> = Ok(value: T) | Err(error: E)

  function Map<A, B>(f: A -> B, xs: seq<A>): (ys: seq<B>)
    ensures |ys| == |xs| && forall i :: 0 <= i < |xs| ==> ys[i] == f(xs[i])
  {
    seq(|xs|, i requires 0 <= i < |xs| => f(xs[i]))
  }

  function Filter<A(!new)>(p: A -> bool, xs: seq<A>): (ys: seq<A>)
    ensures forall y :: y in ys <==> y in xs && p(y)
  {
    if xs == [] then [] else (if p(xs[0]) then [xs[0]] else []) + Filter(p, xs[1..])
  }

  function Flatten<A>(xss: seq<seq<A>>): seq<A>
  {
    if xss == [] then [] else xss[0] + Flatten(xss[1..])
  }

  function Join<T>(parts: seq<seq<T>>, sep: seq<T>): seq<T>
  {
    if |parts| == 0 then []
    else if |parts| == 1 then parts[0]
    else parts[0] + sep + Join(parts[1..], sep)
  }

  function Split<T(==)>(s: seq<T>, sep: seq<T>): (parts: seq<seq<T>>)
    requires |sep| > 0
    ensures |parts| > 0
  {
    if |s| < |sep| then [s]
    else if s[..|sep|] == sep then [[]] + Split(s[|sep|..], sep)
    else
      var rest := Split(s[1..], sep);
      [[s[0]] + rest[0]] + rest[1..]
  }

  /** `sub` stands in `s` at position `i`. */
  ghost predicate At<T>(sub: seq<T>, s: seq<T>, i: int)
  {
    0 <= i <= |s| - |sub| && s[i..i + |sub|] == sub
  }

  /** `sub` occurs in `s` as a contiguous run. */
  ghost predicate Occurs<T>(sub: seq<T>, s: seq<T>)
  {
    exists i :: At(sub, s, i)
  }

  // ---------- Map, Filter, Flatten ----------

  lemma MapConcat<A, B>(f: A -> B, a: seq<A>, b: seq<A>)
    ensures Map(f, a + b) == Map(f, a) + Map(f, b)
  {
  }

  lemma {:induction false} FilterConcat<A(!new)>(p: A -> bool, a: seq<A>, b: seq<A>)
    ensures Filter(p, a + b) == Filter(p, a) + Filter(p, b)
  {
    if a == [] {
      assert a + b == b;
    } else {
      assert (a + b)[1..] == a[1..] + b;
      FilterConcat(p, a[1..], b);
    }
  }

  lemma {:induction false} FilterAll<A(!new)>(p: A -> bool, xs: seq<A>)
    requires forall x :: x in xs ==> p(x)
    ensures Filter(p, xs) == xs
  {
    if xs != [] {
      FilterAll(p, xs[1..]);
    }
  }

  lemma {:induction false} FlattenConcat<A>(a: seq<seq<A>>, b: seq<seq<A>>)
    ensures Flatten(a + b) == Flatten(a) + Flatten(b)
  {
    if a == [] {
      assert a + b == b;
    } else {
      assert (a + b)[1..] == a[1..] + b;
      FlattenConcat(a[1..], b);
    }
  }

  lemma FlattenMapCons<A, B>(f: A -> seq<B>, x: A, xs: seq<A>)
    ensures Flatten(Map(f, [x] + xs)) == f(x) + Flatten(Map(f, xs))
  {
    assert Map(f, [x] + xs)[1..] == Map(f, xs);
  }

  lemma FlattenMapSnoc<A, B>(f: A -> seq<B>, xs: seq<A>, x: A)
    ensures Flatten(Map(f, xs + [x])) == Flatten(Map(f, xs)) + f(x)
  {
    MapConcat(f, xs, [x]);
    FlattenConcat(Map(f, xs), Map(f, [x]));
    assert Map(f, [x]) == [f(x)];
    assert Flatten([f(x)]) == f(x);
  }

  // ---------- Split and Join ----------

  /** A text without the separator splits into itself, and only such a text does. */
  lemma {:induction false} SplitWhole<T>(s: seq<T>, sep: seq<T>)
    requires |sep| > 0
    ensures !Occurs(sep, s) <==> Split(s, sep) == [s]
  {
    if |s| < |sep| {
    } else if s[..|sep|] == sep {
      assert At(sep, s, 0);
      JoinSplit(s, sep);
    } else {
      SplitWhole(s[1..], sep);
      OccursTail(sep, s);
      assert s == [s[0]] + s[1..];
    }
  }

  lemma OccursTail<T>(sub: seq<T>, s: seq<T>)
    requires |s| >= |sub| > 0
    ensures Occurs(sub, s) <==> s[..|sub|] == sub || Occurs(sub, s[1..])
  {
    if s[..|sub|] == sub {
      assert At(sub, s, 0);
    }
    if i :| At(sub, s, i) {
      assert i == 0 || At(sub, s[1..], i - 1);
    }
    if i :| At(sub, s[1..], i) {
      assert At(sub, s, i + 1);
    }
  }

  /** One step of `Split` at a position where the separator does not stand. */
  lemma SplitStep<T>(x: T, s: seq<T>, sep: seq<T>)
    requires |sep| > 0 && !(sep <= [x] + s)
    ensures Split([x] + s, sep) == [[x] + Split(s, sep)[0]] + Split(s, sep)[1..]
  {
    var t := [x] + s;
    assert t[1..] == s;
    if |t| >= |sep| {
      assert t[..|sep|] != sep;
    } else {
      assert Split(s, sep) == [s];
    }
  }

  /** One step of `Split` at a position where the separator stands. */
  lemma SplitMatch<T>(s: seq<T>, sep: seq<T>)
    requires |sep| > 0
    ensures Split(sep + s, sep) == [[]] + Split(s, sep)
  {
    assert (sep + s)[..|sep|] == sep && (sep + s)[|sep|..] == s;
  }

  /** Splitting at a separator that nothing before it can be mistaken for. */
  lemma {:induction false} SplitConcat<T>(a: seq<T>, sep: seq<T>, b: seq<T>)
    requires |sep| > 0
    requires |sep| == 1 || a == [] || a[|a| - 1] !in sep
    ensures Split(a + sep + b, sep) == Split(a, sep) + Split(b, sep)
    decreases |a|
  {
    hide Split;
    if a == [] {
      SplitMatch(b, sep);
      SplitWhole(a, sep);
      assert !Occurs(sep, a);
      assert a + sep + b == sep + b;
    } else if sep <= a + sep + b {
      NoStraddle(a, sep, b);
      var rest := a[|sep|..];
      assert a == sep + rest && a + sep + b == sep + (rest + sep + b);
      SplitConcat(rest, sep, b);
      SplitMatch(rest, sep);
      SplitMatch(rest + sep + b, sep);
    } else {
      var rest := a[1..];
      assert a == [a[0]] + rest && a + sep + b == [a[0]] + (rest + sep + b);
      SplitConcat(rest, sep, b);
      SplitStep(a[0], rest, sep);
      SplitStep(a[0], rest + sep + b, sep);
    }
  }

  /** A separator standing at the front of `a + sep + b` stands inside `a`. */
  lemma NoStraddle<T>(a: seq<T>, sep: seq<T>, b: seq<T>)
    requires a != [] && |sep| > 0 && sep <= a + sep + b
    requires |sep| == 1 || a[|a| - 1] !in sep
    ensures sep <= a
  {
    assert (a + sep + b)[|a| - 1] == a[|a| - 1];
  }

  /** Splitting undoes joining when no part can be mistaken for, or run into, the separator. */
  lemma {:induction false} SplitJoin<T>(parts: seq<seq<T>>, sep: seq<T>)
    requires |sep| > 0 && |parts| > 0
    requires forall p :: p in parts ==> !Occurs(sep, p)
    requires |sep| == 1 || forall p :: p in parts ==> p == [] || p[|p| - 1] !in sep
    ensures Split(Join(parts, sep), sep) == parts
  {
    SplitWhole(parts[0], sep);
    if |parts| > 1 {
      SplitConcat(parts[0], sep, Join(parts[1..], sep));
      SplitJoin(parts[1..], sep);
    }
  }

  /** Joining undoes splitting, for every text. */
  lemma {:induction false} JoinSplit<T>(s: seq<T>, sep: seq<T>)
    requires |sep| > 0
    ensures Join(Split(s, sep), sep) == s
  {
    if |s| < |sep| {
    } else if s[..|sep|] == sep {
      JoinSplit(s[|sep|..], sep);
      assert ([[]] + Split(s[|sep|..], sep))[1..] == Split(s[|sep|..], sep);
    } else {
      JoinSplit(s[1..], sep);
      JoinHead(s[0], Split(s[1..], sep), sep);
    }
  }

  lemma JoinHead<T>(x: T, parts: seq<seq<T>>, sep: seq<T>)
    requires parts != []
    ensures Join([[x] + parts[0]] + parts[1..], sep) == [x] + Join(parts, sep)
  {
    assert ([[x] + parts[0]] + parts[1..])[1..] == parts[1..];
  }

  /** No part of a split holds the separator. */
  lemma {:induction false} SplitPartsFree<T>(s: seq<T>, sep: seq<T>)
    requires |sep| > 0
    ensures forall p :: p in Split(s, sep) ==> !Occurs(sep, p)
  {
    if |s| < |sep| {
    } else if s[..|sep|] == sep {
      SplitPartsFree(s[|sep|..], sep);
    } else {
      var rest := Split(s[1..], sep);
      SplitPartsFree(s[1..], sep);
      var p := [s[0]] + rest[0];
      SplitHeadPrefix(s[1..], sep);
      assert p <= s && p[1..] == rest[0];
      if |p| >= |sep| {
        OccursTail(sep, p);
      }
    }
  }

  /** The first part of a split is a prefix of the text. */
  lemma {:induction false} SplitHeadPrefix<T>(s: seq<T>, sep: seq<T>)
    requires |sep| > 0
    ensures Split(s, sep)[0] <= s
  {
    if |s| < |sep| || s[..|sep|] == sep {
    } else {
      SplitHeadPrefix(s[1..], sep);
    }
  }

  /** Appending an element that the separator does not contain extends the last part. */
  lemma {:induction false} SplitExtendLast<T>(s: seq<T>, x: T, sep: seq<T>)
    requires |sep| > 0 && x !in sep
    ensures var parts := Split(s, sep);
            Split(s + [x], sep) == parts[..|parts| - 1] + [parts[|parts| - 1] + [x]]
  {
    hide Split;
    if s == [] {
      assert sep[0] != x && [x][0..0 + 1][0] == x;
      SplitWhole(s, sep);
      SplitWhole([x], sep);
      assert s + [x] == [x];
    } else if sep <= s {
      var rest := s[|sep|..];
      assert s == sep + rest && s + [x] == sep + (rest + [x]);
      SplitExtendLast(rest, x, sep);
      SplitMatch(rest, sep);
      SplitMatch(rest + [x], sep);
    } else {
      assert s == [s[0]] + s[1..] && s + [x] == [s[0]] + (s[1..] + [x]);
      assert !(sep <= s + [x]) by {
        assert (s + [x])[|s|] == x;
      }
      SplitExtendLast(s[1..], x, sep);
      SplitStep(s[0], s[1..], sep);
      SplitStep(s[0], s[1..] + [x], sep);
      var rest := Split(s[1..], sep);
      assert [s[0]] + (rest[0] + [x]) == [s[0]] + rest[0] + [x];
    }
  }
}
