/** Go run-time semantics the modelled code relies on: errors, multiple
    results, nil pointers and the bounds-checked index and slice operations
    whose failures are panics. */
module Go {

  /** A Go run-time panic the modelled code can raise. */
  datatype Fault = IndexOutOfRange | SliceOutOfRange | NilDereference

  /** A Go `error` value: nil, or an error carrying its message. */
  datatype Error = Nil | Error(msg: string)

  /** A Go pointer or interface value that may be nil. */
  datatype Ptr<T> = Null | Ptr(deref: T)

  /** A model-side optional value (not a Go concept). */
  datatype Option<T> = None | Some(value: T)

  /** The outcome of a Go call returning `(T, error)`: both results, or a panic. */
  datatype Result<T> = Return(value: T, err: Error) | Panic(fault: Fault)

  /** `s[i]` with Go's bounds check. */
  function Index<T>(s: seq<T>, i: int): Result<T>
  {
    if 0 <= i < |s| then Return(s[i], Nil) else Panic(IndexOutOfRange)
  }

  /** `s[lo:hi]` with Go's bounds check. */
  function Slice<T>(s: seq<T>, lo: int, hi: int): Result<seq<T>>
  {
    if 0 <= lo <= hi <= |s| then Return(s[lo..hi], Nil) else Panic(SliceOutOfRange)
  }
}

/** The parts of Go's `strings` package the gateway uses, for a one-character
    separator: `Split`, `Join`, `HasPrefix`/`HasSuffix`, `TrimPrefix`/`TrimSuffix`. */
module GoStrings {

  predicate HasPrefix(s: string, p: string)
  {
    |p| <= |s| && s[..|p|] == p
  }

  predicate HasSuffix(s: string, t: string)
  {
    |t| <= |s| && s[|s| - |t|..] == t
  }

  /** `strings.Join`: the parts with `sep` between neighbours. */
  function Join(parts: seq<string>, sep: string): string
  {
    if |parts| == 0 then ""
    else if |parts| == 1 then parts[0]
    else parts[0] + sep + Join(parts[1..], sep)
  }

  /** `strings.Split(s, string(sep))`: the maximal separator-free fields of `s`,
      empty fields kept, so there is always at least one. Joining the fields
      back gives `s`. */
  function Split(s: string, sep: char): (parts: seq<string>)
    ensures |parts| >= 1
    ensures forall i :: 0 <= i < |parts| ==> sep !in parts[i]
    ensures Join(parts, [sep]) == s
    decreases |s|
  {
    if |s| == 0 then [""]
    else
      var rest := Split(s[1..], sep);
      if s[0] == sep then
        assert ([""] + rest)[1..] == rest;
        [""] + rest
      else
        var parts := [[s[0]] + rest[0]] + rest[1..];
        assert parts[1..] == rest[1..];
        assert s == [s[0]] + s[1..];
        parts
  }

  /** The last element of a non-empty sequence. */
  function Last<T>(s: seq<T>): T
    requires |s| > 0
  {
    s[|s| - 1]
  }

  /** `seg` is the text after the last `sep` of `s`, or all of `s` when `s`
      holds no `sep`. */
  predicate IsLastSegment(s: string, seg: string, sep: char)
  {
    && sep !in seg
    && HasSuffix(s, seg)
    && (|seg| == |s| || s[|s| - |seg| - 1] == sep)
  }

  /** `strings.TrimPrefix`: one leading `p` removed, only if present. */
  function TrimPrefix(s: string, p: string): (r: string)
    ensures HasPrefix(s, p) ==> p + r == s
    ensures !HasPrefix(s, p) ==> r == s
  {
    if HasPrefix(s, p) then s[|p|..] else s
  }

  /** `strings.TrimSuffix`: one trailing `t` removed, only if present. */
  function TrimSuffix(s: string, t: string): (r: string)
    ensures HasSuffix(s, t) ==> r + t == s
    ensures !HasSuffix(s, t) ==> r == s
  {
    if HasSuffix(s, t) then s[..|s| - |t|] else s
  }

  /** A string without the separator is a single field. */
  lemma {:induction false} SplitSingle(s: string, sep: char)
    requires sep !in s
    ensures Split(s, sep) == [s]
    decreases |s|
  {
    if |s| > 0 {
      SplitSingle(s[1..], sep);
      assert s == [s[0]] + s[1..];
    }
  }

  /** One unfolding of `Split` on a string with a known first character. */
  lemma SplitCons(c: char, t: string, sep: char)
    ensures Split([c] + t, sep) ==
      if c == sep then [""] + Split(t, sep)
      else [[c] + Split(t, sep)[0]] + Split(t, sep)[1..]
  {
    assert ([c] + t)[1..] == t;
  }

  /** Splitting distributes over a separator: the fields of `a + sep + b` are
      the fields of `a` followed by the fields of `b`. */
  lemma {:induction false} SplitAround(a: string, b: string, sep: char)
    ensures Split(a + [sep] + b, sep) == Split(a, sep) + Split(b, sep)
    decreases |a|
  {
    if |a| == 0 {
      assert a + [sep] + b == [sep] + b;
      SplitCons(sep, b, sep);
    } else {
      var tail := a[1..] + [sep] + b;
      assert a + [sep] + b == [a[0]] + tail;
      assert a == [a[0]] + a[1..];
      SplitCons(a[0], tail, sep);
      SplitCons(a[0], a[1..], sep);
      SplitAround(a[1..], b, sep);
    }
  }

  /** Splitting undoes joining, when no part holds the separator. */
  lemma {:induction false} SplitJoin(parts: seq<string>, sep: char)
    requires |parts| >= 1
    requires forall i :: 0 <= i < |parts| ==> sep !in parts[i]
    ensures Split(Join(parts, [sep]), sep) == parts
    decreases |parts|
  {
    SplitSingle(parts[0], sep);
    if |parts| > 1 {
      SplitJoin(parts[1..], sep);
      SplitAround(parts[0], Join(parts[1..], [sep]), sep);
      assert [parts[0]] + parts[1..] == parts;
    }
  }

  /** The fields of a string followed by the separator and one more field. */
  lemma SplitLast(head: string, seg: string, sep: char)
    requires sep !in seg
    ensures Split(head + [sep] + seg, sep) == Split(head, sep) + [seg]
  {
    SplitAround(head, seg, sep);
    SplitSingle(seg, sep);
  }

  /** Cutting a joined sequence at any inner position: the join of the two
      halves, separated once more. */
  lemma {:induction false} JoinAt(parts: seq<string>, k: nat, sep: string)
    requires 1 <= k < |parts|
    ensures Join(parts, sep) == Join(parts[..k], sep) + sep + Join(parts[k..], sep)
    decreases k
  {
    if k > 1 {
      JoinAt(parts[1..], k - 1, sep);
      assert parts[1..][..k - 1] == parts[..k][1..];
      assert parts[1..][k - 1..] == parts[k..];
    }
  }

  /** The last field of a split is the text after the last separator. */
  lemma LastOfSplit(s: string, sep: char)
    ensures IsLastSegment(s, Last(Split(s, sep)), sep)
  {
    var parts := Split(s, sep);
    var n := |parts|;
    if n > 1 {
      JoinAt(parts, n - 1, [sep]);
      assert parts[n - 1..] == [parts[n - 1]];
      var head := Join(parts[..n - 1], [sep]);
      assert s == head + [sep] + parts[n - 1];
      assert s[|s| - |parts[n - 1]|..] == parts[n - 1];
      assert s[|s| - |parts[n - 1]| - 1] == sep;
    }
  }

  /** The text after the last `sep` of `s`: the last field of its split. */
  function LastSegment(s: string, sep: char): (seg: string)
    ensures IsLastSegment(s, seg, sep)
  {
    LastOfSplit(s, sep);
    Last(Split(s, sep))
  }

  /** Two separator-free pairs joined by the separator are equal only
      part by part. */
  lemma PairEq(a: string, b: string, c: string, d: string, sep: char)
    requires sep !in a && sep !in b && sep !in c && sep !in d
    requires a + [sep] + b == c + [sep] + d
    ensures a == c && b == d
  {
    SplitAround(a, b, sep);
    SplitAround(c, d, sep);
    SplitSingle(a, sep);
    SplitSingle(b, sep);
    SplitSingle(c, sep);
    SplitSingle(d, sep);
  }

  /** `s` has at least two fields and the last is `seg` exactly when `s` ends
      with the separator followed by `seg`. */
  lemma TrailingOne(s: string, seg: string, sep: char)
    requires sep !in seg
    ensures (|Split(s, sep)| >= 2 && Last(Split(s, sep)) == seg) <==> HasSuffix(s, [sep] + seg)
  {
    var parts := Split(s, sep);
    if |parts| >= 2 && Last(parts) == seg {
      TrailingOneSuffix(s, seg, sep);
    }
    if HasSuffix(s, [sep] + seg) {
      SuffixTrailingOne(s, seg, sep);
    }
  }

  /** A last field `seg` after at least one other follows a separator at the
      end of `s`. */
  lemma TrailingOneSuffix(s: string, seg: string, sep: char)
    requires |Split(s, sep)| >= 2 && Last(Split(s, sep)) == seg
    ensures HasSuffix(s, [sep] + seg)
  {
    var parts := Split(s, sep);
    var n := |parts|;
    JoinAt(parts, n - 1, [sep]);
    assert parts[n - 1..] == [seg];
    assert s == Join(parts[..n - 1], [sep]) + ([sep] + seg);
  }

  /** A separator and `seg` at the end of `s` make `seg` its last field, after
      at least one other. */
  lemma SuffixTrailingOne(s: string, seg: string, sep: char)
    requires sep !in seg
    requires HasSuffix(s, [sep] + seg)
    ensures |Split(s, sep)| >= 2 && Last(Split(s, sep)) == seg
  {
    var head := s[..|s| - |seg| - 1];
    assert s == head + [sep] + seg;
    SplitAround(head, seg, sep);
    SplitSingle(seg, sep);
  }

  /** The join of the last two fields of a split. */
  lemma JoinLastTwo(parts: seq<string>, sep: string)
    requires |parts| >= 2
    ensures Join(parts[|parts| - 2..], sep) == parts[|parts| - 2] + sep + parts[|parts| - 1]
  {
    assert parts[|parts| - 2..][1..] == [parts[|parts| - 1]];
  }

  lemma TrailingPairOf(s: string, a: string, b: string, sep: char)
    requires sep !in a && sep !in b
    requires |Split(s, sep)| >= 3
    requires Join(Split(s, sep)[|Split(s, sep)| - 2..], [sep]) == a + [sep] + b
    ensures HasSuffix(s, [sep] + a + [sep] + b)
  {
    var parts := Split(s, sep);
    var n := |parts|;
    JoinLastTwo(parts, [sep]);
    PairEq(parts[n - 2], parts[n - 1], a, b, sep);
    JoinAt(parts, n - 2, [sep]);
    var head := Join(parts[..n - 2], [sep]);
    assert s == head + [sep] + (a + [sep] + b);
    assert s[|s| - |[sep] + a + [sep] + b|..] == [sep] + a + [sep] + b;
  }

  lemma SplitOfPair(a: string, b: string, sep: char)
    requires sep !in a && sep !in b
    ensures Split(a + [sep] + b, sep) == [a, b]
  {
    SplitAround(a, b, sep);
    SplitSingle(a, sep);
    SplitSingle(b, sep);
  }

  lemma SuffixPair(s: string, a: string, b: string, sep: char)
    requires HasSuffix(s, [sep] + a + [sep] + b)
    ensures s == s[..|s| - |a| - |b| - 2] + [sep] + (a + [sep] + b)
  {
    var k := |s| - |a| - |b| - 2;
    var tail := a + [sep] + b;
    assert s[k..] == [sep] + tail by {
      var x := [sep] + a + [sep] + b;
      assert |x| == |[sep] + tail|;
      forall i | 0 <= i < |x| ensures x[i] == ([sep] + tail)[i] {
      }
    }
    assert s == s[..k] + s[k..];
  }

  lemma SplitOfTrailingPair(s: string, a: string, b: string, sep: char)
    requires sep !in a && sep !in b
    requires HasSuffix(s, [sep] + a + [sep] + b)
    ensures Split(s, sep) == Split(s[..|s| - |a| - |b| - 2], sep) + [a, b]
  {
    SuffixPair(s, a, b, sep);
    SplitAround(s[..|s| - |a| - |b| - 2], a + [sep] + b, sep);
    SplitOfPair(a, b, sep);
  }

  /** `s` has at least three fields and the last two joined are `a`, `sep`,
      `b` exactly when `s` ends with `sep`, `a`, `sep`, `b`. */
  lemma TrailingPair(s: string, a: string, b: string, sep: char)
    requires sep !in a && sep !in b
    ensures (|Split(s, sep)| >= 3 && Join(Split(s, sep)[|Split(s, sep)| - 2..], [sep]) == a + [sep] + b)
      <==> HasSuffix(s, [sep] + a + [sep] + b)
  {
    var parts := Split(s, sep);
    if |parts| >= 3 && Join(parts[|parts| - 2..], [sep]) == a + [sep] + b {
      TrailingPairOf(s, a, b, sep);
    }
    if HasSuffix(s, [sep] + a + [sep] + b) {
      SplitOfTrailingPair(s, a, b, sep);
      var n := |parts|;
      assert parts[n - 2..] == [a, b];
      JoinLastTwo(parts, [sep]);
    }
  }

  /** The last two fields joined are `a`, `sep`, `b` exactly when `s` is that
      pair, or ends with a separator followed by it. */
  lemma TrailingPairOrOnly(s: string, a: string, b: string, sep: char)
    requires sep !in a && sep !in b
    ensures var parts := Split(s, sep);
      (|parts| >= 2 && Join(parts[|parts| - 2..|parts|], [sep]) == a + [sep] + b)
      <==> s == a + [sep] + b || HasSuffix(s, [sep] + a + [sep] + b)
  {
    var parts := Split(s, sep);
    var n := |parts|;
    if n >= 2 {
      assert parts[n - 2..n] == parts[n - 2..];
    }
    if n == 2 {
      assert parts[n - 2..] == parts;
    }
    TrailingPair(s, a, b, sep);
    OnlyPair(s, a, b, sep);
    if s == a + [sep] + b {
      SplitOfPair(a, b, sep);
    }
  }

  /** `s` has exactly two fields and they are `a` and `b` exactly when `s`
      is `a`, `sep`, `b`. */
  lemma OnlyPair(s: string, a: string, b: string, sep: char)
    requires sep !in a && sep !in b
    ensures var parts := Split(s, sep);
      (|parts| == 2 && Join(parts, [sep]) == a + [sep] + b) <==> s == a + [sep] + b
  {
    var parts := Split(s, sep);
    if s == a + [sep] + b {
      SplitAround(a, b, sep);
      SplitSingle(a, sep);
      SplitSingle(b, sep);
    }
  }

  /** A string has only one last segment. */
  lemma LastSegmentUnique(s: string, a: string, b: string, sep: char)
    requires IsLastSegment(s, a, sep) && IsLastSegment(s, b, sep)
    ensures a == b
  {
  }

  /** The last field of a split depends only on the text after the last
      separator. */
  lemma LastOfSplitIs(s: string, seg: string, sep: char)
    requires IsLastSegment(s, seg, sep)
    ensures Last(Split(s, sep)) == seg
  {
    LastOfSplit(s, sep);
    LastSegmentUnique(s, seg, Last(Split(s, sep)), sep);
  }
}

/** `url.Values`: a query string's parameters, each with its list of values. */
module UrlQuery {
  import opened Go

  type Query = map<string, seq<string>>

  /** `Values.Get`: the first value of `key`, or "" when it has none. */
  function Get(q: Query, key: string): (v: string)
    ensures key in q && |q[key]| > 0 ==> v == q[key][0]
    ensures !(key in q && |q[key]| > 0) ==> v == ""
  {
    if key in q && |q[key]| > 0 then q[key][0] else ""
  }

  /** `q[key][0]`: a missing key reads as a nil slice, so indexing it panics. */
  function First(q: Query, key: string): (r: Result<string>)
    ensures r.Return? <==> key in q && |q[key]| > 0
    ensures r.Return? ==> r.value == q[key][0] && r.err == Nil
    ensures r.Panic? ==> r.fault == IndexOutOfRange
  {
    Index(if key in q then q[key] else [], 0)
  }
}
