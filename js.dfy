/**
 * The JavaScript built-ins the pages rely on, stated on Dafny sequences:
 * `slice` with negative indices, `includes`, `startsWith`/`endsWith`,
 * `toLowerCase` (ASCII letters only), `split`/`join` on one separator
 * character, `repeat`, and the order-preserving `filter`.
 */
module Js {

  datatype Option<T> = None | Some(value: T)

  /** A `Number(...)` conversion result: NaN, or a finite value. */
  datatype JsNumber = NaN | Num(value: real)

  /** `x < y` on numbers: false whenever either side is NaN. */
  predicate Less(x: JsNumber, y: real)
  {
    x.Num? && x.value < y
  }

  /** `x > y` on numbers: false whenever either side is NaN. */
  predicate Greater(x: JsNumber, y: real)
  {
    x.Num? && x.value > y
  }

  // ---------------------------------------------------------------------
  // slice

  /** How `slice` turns an argument into a position of a sequence of length n. */
  function RelIndex(k: int, n: nat): (r: nat)
    ensures r <= n
  {
    if k < 0 then (if n + k > 0 then n + k else 0)
    else if k < n then k else n
  }

  /** `s.slice(start, end)` for strings and arrays. */
  function Slice<T>(s: seq<T>, start: int, end: int): (r: seq<T>)
    ensures |r| <= |s|
  {
    var a := RelIndex(start, |s|);
    var b := RelIndex(end, |s|);
    if a < b then s[a..b] else []
  }

  /** `s.slice(start)`. */
  function SliceFrom<T>(s: seq<T>, start: int): (r: seq<T>)
    ensures |r| <= |s|
  {
    Slice(s, start, |s|)
  }

  /** A window of width k never yields more than k elements, whatever its start. */
  lemma SliceWidth<T>(s: seq<T>, start: int, k: nat)
    ensures |Slice(s, start, start + k)| <= k
  {
  }

  /** In range, `slice` is ordinary sub-sequence selection. */
  lemma SliceInRange<T>(s: seq<T>, a: nat, b: nat)
    requires a <= b <= |s|
    ensures Slice(s, a, b) == s[a..b]
  {
  }

  /** `s.slice(-k)` for 0 < k <= |s| is the last k elements. */
  lemma SliceFromNegative<T>(s: seq<T>, k: int)
    requires 0 < k <= |s|
    ensures SliceFrom(s, -k) == s[|s| - k..]
  {
  }

  // ---------------------------------------------------------------------
  // searching

  predicate StartsWith<T(==)>(s: seq<T>, p: seq<T>)
  {
    |p| <= |s| && s[..|p|] == p
  }

  predicate EndsWith<T(==)>(s: seq<T>, p: seq<T>)
  {
    |p| <= |s| && s[|s| - |p|..] == p
  }

  /** t occurs in s starting at position i. */
  predicate OccursAt<T(==)>(s: seq<T>, t: seq<T>, i: int)
  {
    0 <= i && i + |t| <= |s| && s[i..i + |t|] == t
  }

  /** `s.includes(t)`. */
  predicate Includes<T(==)>(s: seq<T>, t: seq<T>)
  {
    exists i | 0 <= i <= |s| - |t| :: OccursAt(s, t, i)
  }

  /** Every string includes the empty string. */
  lemma IncludesEmpty<T>(s: seq<T>)
    ensures Includes(s, [])
  {
    assert OccursAt(s, [], 0);
  }

  /** Every string includes itself. */
  lemma IncludesSelf<T>(s: seq<T>)
    ensures Includes(s, s)
  {
    assert OccursAt(s, s, 0);
  }

  // ---------------------------------------------------------------------
  // case

  function LowerChar(c: char): char
  {
    if 'A' <= c <= 'Z' then (c as int + 32) as char else c
  }

  /** `s.toLowerCase()` on ASCII letters; other characters are kept. */
  function ToLower(s: string): (r: string)
    ensures |r| == |s|
    ensures forall i :: 0 <= i < |s| ==> r[i] == LowerChar(s[i])
  {
    seq(|s|, i requires 0 <= i < |s| => LowerChar(s[i]))
  }

  /** `s.toLowerCase().includes(term.toLowerCase())`. */
  predicate ContainsIgnoringCase(s: string, term: string)
  {
    Includes(ToLower(s), ToLower(term))
  }

  lemma ContainsEmptyTerm(s: string)
    ensures ContainsIgnoringCase(s, "")
  {
    IncludesEmpty(ToLower(s));
  }

  // ---------------------------------------------------------------------
  // split, join, repeat

  /** The first position of c in s, or |s| when there is none. */
  function IndexOf(s: string, c: char): (i: nat)
    ensures i <= |s|
    ensures i < |s| ==> s[i] == c
    ensures c !in s[..i]
    ensures i == |s| <==> c !in s
  {
    if s == [] then 0
    else if s[0] == c then 0
    else
      assert s[1..][..IndexOf(s[1..], c)] == s[1..1 + IndexOf(s[1..], c)];
      1 + IndexOf(s[1..], c)
  }

  /** `s.indexOf(x)` on an array: the first position of x, or -1 when there is none. */
  function IndexIn<T(==)>(s: seq<T>, x: T): (i: int)
    ensures -1 <= i < |s|
    ensures i >= 0 ==> s[i] == x && x !in s[..i]
    ensures i == -1 <==> x !in s
  {
    if s == [] then -1
    else if s[0] == x then 0
    else
      var j := IndexIn(s[1..], x);
      assert j >= 0 ==> s[1..][..j] == s[1..j + 1];
      if j == -1 then -1 else j + 1
  }

  /** `s.split(sep)` for a one-character separator. */
  function Split(s: string, sep: char): (parts: seq<string>)
    ensures |parts| >= 1
    decreases |s|
  {
    var i := IndexOf(s, sep);
    if i == |s| then [s] else [s[..i]] + Split(s[i + 1..], sep)
  }

  /** `parts.join(sep)`; the join of no parts is "". */
  function Join(parts: seq<string>, sep: char): string
  {
    if parts == [] then ""
    else if |parts| == 1 then parts[0]
    else parts[0] + [sep] + Join(parts[1..], sep)
  }

  /** `c.repeat(n)`. */
  function Repeat(c: char, n: nat): (r: string)
    ensures |r| == n && forall i :: 0 <= i < n ==> r[i] == c
  {
    seq(n, _ => c)
  }

  /** No part of a split contains the separator. */
  lemma {:induction false} SplitPartsFree(s: string, sep: char)
    ensures forall k :: 0 <= k < |Split(s, sep)| ==> sep !in Split(s, sep)[k]
    decreases |s|
  {
    var i := IndexOf(s, sep);
    if i < |s| {
      SplitPartsFree(s[i + 1..], sep);
    }
  }

  /** Joining the parts of a split gives the string back. */
  lemma {:induction false} JoinSplit(s: string, sep: char)
    ensures Join(Split(s, sep), sep) == s
    decreases |s|
  {
    var i := IndexOf(s, sep);
    if i < |s| {
      var head, tail := s[..i], s[i + 1..];
      var rest := Split(tail, sep);
      JoinSplit(tail, sep);
      assert Split(s, sep) == [head] + rest;
      assert Join([head] + rest, sep) == head + [sep] + Join(rest, sep) by {
        assert ([head] + rest)[0] == head;
        assert ([head] + rest)[1..] == rest;
      }
      assert s == head + [sep] + tail;
    } else {
      assert Split(s, sep) == [s];
    }
  }

  /** Splitting a join of separator-free parts gives the parts back. */
  lemma {:induction false} SplitJoin(parts: seq<string>, sep: char)
    requires |parts| >= 1
    requires forall k :: 0 <= k < |parts| ==> sep !in parts[k]
    ensures Split(Join(parts, sep), sep) == parts
    decreases |parts|
  {
    if |parts| > 1 {
      var p := parts[0];
      var rest := Join(parts[1..], sep);
      var s := Join(parts, sep);
      assert s == p + [sep] + rest;
      assert s[..|p|] == p;
      assert sep !in s[..|p|];
      assert s[|p|] == sep;
      IndexOfFirst(s, sep, |p|);
      assert s[|p| + 1..] == rest;
      SplitJoin(parts[1..], sep);
      assert parts == [p] + parts[1..];
    } else {
      assert Join(parts, sep) == parts[0];
    }
  }

  lemma IndexOfFirst(s: string, c: char, i: nat)
    requires i < |s| && s[i] == c && c !in s[..i]
    ensures IndexOf(s, c) == i
  {
  }

  /** The length of a join: the parts plus one separator between each pair. */
  lemma {:induction false} JoinLength(parts: seq<string>, sep: char, lens: seq<nat>)
    requires |lens| == |parts| && forall k :: 0 <= k < |parts| ==> |parts[k]| == lens[k]
    ensures |Join(parts, sep)| == Sum(lens) + (if |parts| == 0 then 0 else |parts| - 1)
    decreases |parts|
  {
    if |parts| > 1 {
      JoinLength(parts[1..], sep, lens[1..]);
    }
  }

  function Sum(xs: seq<nat>): nat
  {
    if xs == [] then 0 else xs[0] + Sum(xs[1..])
  }

  // ---------------------------------------------------------------------
  // filter

  /** `s.filter(f)`: the elements satisfying f, in their original order. */
  function Filter<T(==)>(s: seq<T>, f: T -> bool): (r: seq<T>)
    ensures |r| <= |s|
    ensures forall i :: 0 <= i < |r| ==> f(r[i])
  {
    if s == [] then []
    else if f(s[0]) then [s[0]] + Filter(s[1..], f)
    else Filter(s[1..], f)
  }

  /** The filter keeps exactly the elements satisfying f, in their order. */
  lemma {:induction false} FilterMembers<T>(s: seq<T>, f: T -> bool)
    ensures forall i :: 0 <= i < |Filter(s, f)| ==> Filter(s, f)[i] in s
    ensures forall i :: 0 <= i < |s| && f(s[i]) ==> s[i] in Filter(s, f)
    ensures IsSubsequence(Filter(s, f), s)
    decreases |s|
  {
    if s != [] {
      FilterMembers(s[1..], f);
      var r := Filter(s, f);
      var t := Filter(s[1..], f);
      if f(s[0]) {
        assert r == [s[0]] + t;
        assert r[1..] == t;
        forall i | 0 <= i < |r| ensures r[i] in s {
          if i > 0 {
            assert r[i] == t[i - 1];
            assert t[i - 1] in s[1..];
          }
        }
        forall i | 0 <= i < |s| && f(s[i]) ensures s[i] in r {
          if i > 0 {
            assert s[i] == s[1..][i - 1];
          }
        }
      } else {
        assert r == t;
        forall i | 0 <= i < |r| ensures r[i] in s {
          assert r[i] in s[1..];
        }
        forall i | 0 <= i < |s| && f(s[i]) ensures s[i] in r {
          assert i > 0;
          assert s[i] == s[1..][i - 1];
        }
        if t != [] {
          assert f(t[0]);
          assert t[0] != s[0];
        }
      }
    }
  }

  /** `s.filter(f)[0]` is the first element of s satisfying f. */
  lemma {:induction false} FilterFirst<T>(s: seq<T>, f: T -> bool)
    requires Filter(s, f) != []
    ensures exists k :: 0 <= k < |s| && s[k] == Filter(s, f)[0] && f(s[k]) && forall j :: 0 <= j < k ==> !f(s[j])
    decreases |s|
  {
    if f(s[0]) {
      assert s[0] == Filter(s, f)[0];
    } else {
      FilterFirst(s[1..], f);
      var k :| 0 <= k < |s[1..]| && s[1..][k] == Filter(s[1..], f)[0] && f(s[1..][k])
        && forall j :: 0 <= j < k ==> !f(s[1..][j]);
      assert s[k + 1] == Filter(s, f)[0];
      forall j | 0 <= j < k + 1 ensures !f(s[j]) {
        if j > 0 { assert s[j] == s[1..][j - 1]; }
      }
    }
  }

  /** r can be obtained from s by deleting elements, keeping the order. */
  predicate IsSubsequence<T(==)>(r: seq<T>, s: seq<T>)
  {
    if r == [] then true
    else if s == [] then false
    else if r[0] == s[0] then IsSubsequence(r[1..], s[1..])
    else IsSubsequence(r, s[1..])
  }

  lemma {:induction false} FilterAppend<T>(a: seq<T>, b: seq<T>, f: T -> bool)
    ensures Filter(a + b, f) == Filter(a, f) + Filter(b, f)
    decreases |a|
  {
    if a != [] {
      assert (a + b)[0] == a[0];
      assert (a + b)[1..] == a[1..] + b;
      FilterAppend(a[1..], b, f);
      if f(a[0]) {
        assert Filter(a + b, f) == [a[0]] + Filter(a[1..] + b, f);
        assert Filter(a, f) == [a[0]] + Filter(a[1..], f);
      } else {
        assert Filter(a + b, f) == Filter(a[1..] + b, f);
        assert Filter(a, f) == Filter(a[1..], f);
      }
    } else {
      assert a + b == b;
    }
  }

  /** Filtering one more element at the end. */
  lemma FilterSnoc<T>(s: seq<T>, x: T, f: T -> bool)
    ensures Filter(s + [x], f) == Filter(s, f) + (if f(x) then [x] else [])
  {
    FilterAppend(s, [x], f);
    assert [x][1..] == [];
  }

  /** A filter that keeps every element is the identity. */
  lemma {:induction false} FilterAll<T>(s: seq<T>, f: T -> bool)
    requires forall i :: 0 <= i < |s| ==> f(s[i])
    ensures Filter(s, f) == s
    decreases |s|
  {
    if s != [] {
      FilterAll(s[1..], f);
    }
  }

  /** Filters commute. */
  lemma {:induction false} FilterCommute<T>(s: seq<T>, f: T -> bool, g: T -> bool)
    ensures Filter(Filter(s, f), g) == Filter(Filter(s, g), f)
    decreases |s|
  {
    if s != [] {
      FilterCommute(s[1..], f, g);
      var x := s[0];
      if f(x) {
        assert Filter(s, f) == [x] + Filter(s[1..], f);
        assert ([x] + Filter(s[1..], f))[1..] == Filter(s[1..], f);
      }
      if g(x) {
        assert Filter(s, g) == [x] + Filter(s[1..], g);
        assert ([x] + Filter(s[1..], g))[1..] == Filter(s[1..], g);
      }
    }
  }

  /** Two filters that agree on the elements of s give the same result. */
  lemma {:induction false} FilterExt<T>(s: seq<T>, f: T -> bool, g: T -> bool)
    requires forall i :: 0 <= i < |s| ==> f(s[i]) == g(s[i])
    ensures Filter(s, f) == Filter(s, g)
    decreases |s|
  {
    if s != [] {
      FilterExt(s[1..], f, g);
    }
  }

  /** The number of elements satisfying f. */
  function Count<T(==)>(s: seq<T>, f: T -> bool): (n: nat)
    ensures n <= |s|
  {
    |Filter(s, f)|
  }

  /** `s.filter((_, j) => j !== i)`: drops exactly position i, if there is one. */
  function RemoveAt<T>(s: seq<T>, i: int): (r: seq<T>)
    ensures 0 <= i < |s| ==> |r| == |s| - 1
    ensures 0 <= i < |s| ==> forall j :: 0 <= j < |r| ==> r[j] == if j < i then s[j] else s[j + 1]
    ensures !(0 <= i < |s|) ==> r == s
  {
    if 0 <= i < |s| then s[..i] + s[i + 1..] else s
  }
}
