/** Vocabulary shared by every screen of the portal: optional values,
    JavaScript truthiness of strings, the order-preserving `filter` of
    JavaScript arrays, and the few string operations the pages use
    (`startsWith`, `includes`, `split(sep).pop()`, ASCII character classes). */
module Common {

  datatype Option<T> = None | Some(value: T)

  /** JavaScript truthiness of a value that may be missing: undefined, null and '' are falsy. */
  predicate Truthy(o: Option<string>) {
    o.Some? && o.value != ""
  }

  /** `s.filter(keep)`: the elements of `s` that satisfy `keep`, in their original order. */
  function Filter<T>(s: seq<T>, keep: T -> bool): (r: seq<T>)
    ensures |r| <= |s|
    ensures forall i :: 0 <= i < |r| ==> r[i] in s && keep(r[i])
    ensures forall i :: 0 <= i < |s| && keep(s[i]) ==> s[i] in r
  {
    if s == [] then []
    else (if keep(s[0]) then [s[0]] else []) + Filter(s[1..], keep)
  }

  /** Filtering a concatenation filters each part. */
  lemma {:induction false} FilterAppend<T>(s: seq<T>, t: seq<T>, keep: T -> bool)
    ensures Filter(s + t, keep) == Filter(s, keep) + Filter(t, keep)
  {
    if s == [] {
      assert s + t == t;
    } else {
      assert (s + t)[0] == s[0];
      assert (s + t)[1..] == s[1..] + t;
      FilterAppend(s[1..], t, keep);
    }
  }

  /** A filter that keeps every element returns the sequence itself. */
  lemma {:induction false} FilterKeepsAll<T>(s: seq<T>, keep: T -> bool)
    requires forall i :: 0 <= i < |s| ==> keep(s[i])
    ensures Filter(s, keep) == s
  {
    if s != [] {
      FilterKeepsAll(s[1..], keep);
    }
  }

  /** A filter that keeps no element returns the empty sequence. */
  lemma {:induction false} FilterKeepsNone<T>(s: seq<T>, keep: T -> bool)
    requires forall i :: 0 <= i < |s| ==> !keep(s[i])
    ensures Filter(s, keep) == []
  {
    if s != [] {
      FilterKeepsNone(s[1..], keep);
    }
  }

  /** Two filters applied one after the other keep the same elements in either order. */
  lemma {:induction false} FilterCommutes<T>(s: seq<T>, p: T -> bool, q: T -> bool)
    ensures Filter(Filter(s, p), q) == Filter(Filter(s, q), p)
  {
    if s != [] {
      FilterCommutes(s[1..], p, q);
      var head := if p(s[0]) then [s[0]] else [];
      FilterAppend(head, Filter(s[1..], p), q);
      var head' := if q(s[0]) then [s[0]] else [];
      FilterAppend(head', Filter(s[1..], q), p);
    }
  }

  /** `s.startsWith(p)`. */
  predicate StartsWith(s: string, p: string) {
    |p| <= |s| && s[..|p|] == p
  }

  /** `s.includes(t)`: `t` occurs somewhere in `s` as a contiguous piece. */
  predicate Contains(s: string, t: string) {
    exists i :: 0 <= i <= |s| && StartsWith(s[i..], t)
  }

  /** A string contains every one of its own pieces, and the pieces of its extensions. */
  lemma ContainsInConcat(x: string, t: string, y: string)
    ensures Contains(x + t + y, t)
  {
    var s := x + t + y;
    assert s[|x|..][..|t|] == t;
    assert StartsWith(s[|x|..], t);
  }

  /** `s.split(sep).pop()`: the text after the last `sep`, or all of `s` when it has none. */
  function LastSegment(s: string, sep: char): (r: string)
    ensures |r| <= |s| && r == s[|s| - |r|..]
    ensures sep !in r
    ensures |r| < |s| ==> s[|s| - |r| - 1] == sep
  {
    if |s| == 0 then ""
    else if s[|s| - 1] == sep then ""
    else LastSegment(s[..|s| - 1], sep) + [s[|s| - 1]]
  }

  /** The segment after a separator is the last segment when it holds no separator itself. */
  lemma {:induction false} LastSegmentAfterSeparator(y: string, sep: char, x: string)
    requires sep !in x
    ensures LastSegment(y + [sep] + x, sep) == x
  {
    if x != [] {
      var s := y + [sep] + x;
      assert s[..|s| - 1] == y + [sep] + x[..|x| - 1];
      LastSegmentAfterSeparator(y, sep, x[..|x| - 1]);
    } else {
      assert (y + [sep] + x)[|y|] == sep;
    }
  }

  /** A string without the separator is its own last segment. */
  lemma {:induction false} LastSegmentWithoutSeparator(s: string, sep: char)
    requires sep !in s
    ensures LastSegment(s, sep) == s
  {
    if s != [] {
      assert s[|s| - 1] in s;
      LastSegmentWithoutSeparator(s[..|s| - 1], sep);
    }
  }

  predicate IsDigit(c: char) { '0' <= c <= '9' }
  predicate IsLower(c: char) { 'a' <= c <= 'z' }
  predicate IsUpper(c: char) { 'A' <= c <= 'Z' }

  /** The characters JavaScript's regular-expression `.` does not match. */
  predicate IsLineTerminator(c: char) {
    c == '\n' || c == '\r' || c == '\U{2028}' || c == '\U{2029}'
  }

  function DigitValue(c: char): (v: nat)
    requires IsDigit(c)
    ensures v < 10
  {
    (c as int - '0' as int) as nat
  }

  /** The number a string of decimal digits denotes. */
  function DecimalValue(s: string): nat
    requires forall i :: 0 <= i < |s| ==> IsDigit(s[i])
  {
    if s == [] then 0 else DecimalValue(s[..|s| - 1]) * 10 + DigitValue(s[|s| - 1])
  }

  /** The decimal text of a count, as a template literal `${n}` renders it. */
  function NatToString(n: nat): (r: string)
    ensures |r| >= 1 && forall i :: 0 <= i < |r| ==> IsDigit(r[i])
    ensures DecimalValue(r) == n
  {
    if n < 10 then [('0' as int + n) as char]
    else
      var r := NatToString(n / 10) + [('0' as int + n % 10) as char];
      assert r[..|r| - 1] == NatToString(n / 10);
      r
  }
  /** The position of the first `x` in `s`, or `|s|` when there is none. */
  function IndexOf<T(==)>(s: seq<T>, x: T): (i: nat)
    ensures i <= |s| && (i < |s| <==> x in s)
    ensures i < |s| ==> s[i] == x
    ensures forall k :: 0 <= k < i ==> s[k] != x
  {
    if s == [] then 0 else if s[0] == x then 0 else 1 + IndexOf(s[1..], x)
  }

  /** An element of a prefix is first found where the prefix has it first. */
  lemma IndexOfInPrefix<T>(s: seq<T>, n: nat, x: T)
    requires n <= |s| && x in s[..n]
    ensures IndexOf(s, x) == IndexOf(s[..n], x)
  {
    var i, j := IndexOf(s, x), IndexOf(s[..n], x);
    assert s[..n][j] == s[j];
    assert i <= j;
    assert s[..n][i] == s[i];
  }

  /** `Array.from(new Set(s))`: each element once, in the order of its first occurrence. */
  function Distinct<T(==)>(s: seq<T>): (r: seq<T>)
    ensures forall i :: 0 <= i < |r| ==> r[i] in s
    ensures forall i :: 0 <= i < |s| ==> s[i] in r
    ensures forall i, j :: 0 <= i < j < |r| ==> r[i] != r[j]
  {
    if s == [] then []
    else
      var p := Distinct(s[..|s| - 1]);
      if s[|s| - 1] in p then p else p + [s[|s| - 1]]
  }

  /** The distinct elements come in the order in which the sequence first shows them. */
  lemma {:induction false} DistinctKeepsFirstOccurrenceOrder<T>(s: seq<T>)
    ensures forall i, j :: 0 <= i < j < |Distinct(s)| ==> IndexOf(s, Distinct(s)[i]) < IndexOf(s, Distinct(s)[j])
  {
    if s != [] {
      var init, last := s[..|s| - 1], s[|s| - 1];
      var p := Distinct(init);
      DistinctKeepsFirstOccurrenceOrder(init);
      forall i | 0 <= i < |p| ensures IndexOf(s, p[i]) == IndexOf(init, p[i]) {
        IndexOfInPrefix(s, |s| - 1, p[i]);
      }
      if last !in p {
        assert last !in init;
        assert IndexOf(s, last) == |s| - 1;
      }
    }
  }

  /** A sequence without repeats is its own set of distinct elements. */
  lemma {:induction false} DistinctOfDistinct<T>(s: seq<T>)
    requires forall i, j :: 0 <= i < j < |s| ==> s[i] != s[j]
    ensures Distinct(s) == s
  {
    if s != [] {
      DistinctOfDistinct(s[..|s| - 1]);
      assert s[|s| - 1] !in s[..|s| - 1];
      assert s[..|s| - 1] + [s[|s| - 1]] == s;
    }
  }
}
