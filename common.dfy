/** Shared vocabulary of the pages: optional values, JavaScript numbers as the
    pages use them (integers or NaN), order-preserving filtering, ASCII case
    folding and substring search. */
module Common {

  datatype Option<+T> = None | Some(value: T)

  datatype Result<+T, +E> = Success(value: T) | Failure(error: E)

  /** A JavaScript number as far as the points balance needs it: an integer,
      or NaN once a failed parse has been added into it. */
  datatype Num = Int(n: int) | NaN {

    /** JavaScript `+`: NaN is absorbing. */
    function Plus(other: Num): (r: Num)
      ensures r.Int? <==> this.Int? && other.Int?
      ensures r.Int? ==> r.n - other.n == this.n
    {
      if this.Int? && other.Int? then Int(this.n + other.n) else NaN
    }

    /** JavaScript `this >= k`: every comparison with NaN is false. */
    /** `x >= k`: never true of NaN. */
    predicate AtLeast(k: int)
      ensures NaN? ==> !AtLeast(k)
      ensures Int? ==> (AtLeast(k) <==> n >= k)
    {
      Int? && n >= k
    }
  }

  /** `xs.filter(p)`: the elements that pass, in their original order. */
  function Filter<T>(s: seq<T>, p: T -> bool): (r: seq<T>)
    ensures |r| <= |s|
    ensures forall i :: 0 <= i < |r| ==> r[i] in s && p(r[i])
    ensures forall i :: 0 <= i < |s| && p(s[i]) ==> s[i] in r
  {
    if s == [] then []
    else if p(s[0]) then [s[0]] + Filter(s[1..], p)
    else Filter(s[1..], p)
  }

  /** Filtering commutes with concatenation, so the relative order of the
      surviving elements is that of the input. */
  lemma {:induction false} FilterConcat<T>(a: seq<T>, b: seq<T>, p: T -> bool)
    ensures Filter(a + b, p) == Filter(a, p) + Filter(b, p)
  {
    if a != [] {
      var t := a + b;
      assert t[0] == a[0] && t[1..] == a[1..] + b;
      FilterConcat(a[1..], b, p);
      if p(a[0]) {
        assert Filter(t, p) == [a[0]] + (Filter(a[1..], p) + Filter(b, p));
      } else {
        assert Filter(t, p) == Filter(a[1..], p) + Filter(b, p);
      }
    } else {
      assert a + b == b;
    }
  }

  /** A filter that every element passes returns its input unchanged. */
  lemma {:induction false} FilterAllPass<T>(s: seq<T>, p: T -> bool)
    requires forall i :: 0 <= i < |s| ==> p(s[i])
    ensures Filter(s, p) == s
  {
    if s != [] {
      FilterAllPass(s[1..], p);
    }
  }

  /** Two predicates that agree on every element filter alike. */
  lemma {:induction false} FilterSamePredicate<T>(s: seq<T>, p: T -> bool, q: T -> bool)
    requires forall i :: 0 <= i < |s| ==> p(s[i]) == q(s[i])
    ensures Filter(s, p) == Filter(s, q)
  {
    if s != [] {
      FilterSamePredicate(s[1..], p, q);
    }
  }

  /** r is obtained from s by deleting elements, keeping the order of the
      rest. */
  predicate Subsequence<T(==)>(r: seq<T>, s: seq<T>)
    decreases |s|
  {
    r == [] || (s != [] && ((r[0] == s[0] && Subsequence(r[1..], s[1..])) || Subsequence(r, s[1..])))
  }

  /** A filter keeps the surviving elements in their input order. */
  lemma {:induction false} FilterIsSubsequence<T>(s: seq<T>, p: T -> bool)
    ensures Subsequence(Filter(s, p), s)
  {
    if s != [] {
      FilterIsSubsequence(s[1..], p);
      if p(s[0]) {
        var r := Filter(s, p);
        assert r[0] == s[0] && r[1..] == Filter(s[1..], p);
      }
    }
  }

  /** Every sequence is a subsequence of itself. */
  lemma {:induction false} SubsequenceReflexive<T>(s: seq<T>)
    ensures Subsequence(s, s)
  {
    if s != [] {
      SubsequenceReflexive(s[1..]);
    }
  }

  /** `xs.find(matches)`: the first element that matches, if there is one. */
  function Find<T>(xs: seq<T>, matches: T -> bool): (r: Option<T>)
    ensures r.None? <==> forall i :: 0 <= i < |xs| ==> !matches(xs[i])
    ensures r.Some? ==> exists k :: 0 <= k < |xs| && xs[k] == r.value && matches(xs[k]) &&
                                    forall j :: 0 <= j < k ==> !matches(xs[j])
  {
    if xs == [] then None
    else if matches(xs[0]) then Some(xs[0])
    else
      var r := Find(xs[1..], matches);
      assert r.Some? ==> exists k :: 1 <= k < |xs| && xs[k] == r.value && matches(xs[k]) &&
                                     forall j :: 0 <= j < k ==> !matches(xs[j]) by {
        if r.Some? {
          var k :| 0 <= k < |xs[1..]| && xs[1..][k] == r.value && matches(xs[1..][k]) &&
                   forall j :: 0 <= j < k ==> !matches(xs[1..][j]);
          assert forall j :: 0 <= j < k + 1 ==> !matches(xs[j]) by {
            forall j | 0 <= j < k + 1 ensures !matches(xs[j]) {
              if j > 0 { assert xs[j] == xs[1..][j - 1]; }
            }
          }
        }
      }
      r
  }

  /** ASCII part of `String.prototype.toLowerCase`. */
  function LowerChar(c: char): (r: char)
    ensures 'A' <= c <= 'Z' ==> 'a' <= r <= 'z' && r as int == c as int + 32
    ensures !('A' <= c <= 'Z') ==> r == c
  {
    if 'A' <= c <= 'Z' then (c as int + 32) as char else c
  }

  function Lower(s: string): (r: string)
    ensures |r| == |s|
    ensures forall i :: 0 <= i < |s| ==> r[i] == LowerChar(s[i])
  {
    if s == [] then [] else [LowerChar(s[0])] + Lower(s[1..])
  }

  /** Lower-casing twice is lower-casing once. */
  lemma LowerIdempotent(s: string)
    ensures Lower(Lower(s)) == Lower(s)
  {
    var l := Lower(s);
    assert forall i :: 0 <= i < |l| ==> !('A' <= l[i] <= 'Z');
  }

  /** `hay.includes(needle)`: needle occurs in hay at some position. */
  predicate Contains(hay: string, needle: string)
    decreases |hay|
    ensures Contains(hay, needle) ==> |needle| <= |hay|
  {
    needle <= hay || (hay != [] && Contains(hay[1..], needle))
  }

  /** needle sits in hay at index k. */
  predicate OccursAt(hay: string, needle: string, k: int) {
    0 <= k <= |hay| - |needle| && needle <= hay[k..]
  }

  /** `includes` finds needle exactly when it sits at some index of hay. */
  lemma {:induction false} ContainsAt(hay: string, needle: string)
    ensures Contains(hay, needle) <==> exists k :: OccursAt(hay, needle, k)
  {
    if needle <= hay {
      assert hay[0..] == hay;
      assert OccursAt(hay, needle, 0);
    } else if hay != [] {
      ContainsAt(hay[1..], needle);
      if Contains(hay[1..], needle) {
        var k :| OccursAt(hay[1..], needle, k);
        OccursAtShift(hay, needle, k + 1);
      }
      if exists k :: OccursAt(hay, needle, k) {
        var k :| OccursAt(hay, needle, k);
        assert k != 0;
        OccursAtShift(hay, needle, k);
      }
    }
  }

  /** An occurrence past the first character is one in the tail. */
  lemma OccursAtShift(hay: string, needle: string, k: int)
    requires 1 <= k <= |hay|
    ensures OccursAt(hay, needle, k) <==> OccursAt(hay[1..], needle, k - 1)
  {
    assert hay[1..][k - 1..] == hay[k..];
  }

  /** Every string includes the empty string. */
  lemma ContainsEmpty(hay: string)
    ensures Contains(hay, "")
  {
  }

  /** A case-insensitive search term: does the lower-cased text include the
      lower-cased term? */
  predicate MatchesIgnoringCase(text: string, term: string) {
    Contains(Lower(text), Lower(term))
  }

  /** Lower-casing the term first does not change the outcome of a search. */
  lemma MatchesIgnoringCaseOfLower(text: string, term: string)
    ensures MatchesIgnoringCase(text, Lower(term)) == MatchesIgnoringCase(text, term)
  {
    LowerIdempotent(term);
  }

  /** The white space and line terminators that `trim` and `parseInt` skip
      (ECMAScript WhiteSpace and LineTerminator). */
  predicate IsJsWhitespace(c: char) {
    var u := c as int;
    u == 0x09 || u == 0x0A || u == 0x0B || u == 0x0C || u == 0x0D || u == 0x20
    || u == 0xA0 || u == 0x1680 || (0x2000 <= u <= 0x200A)
    || u == 0x2028 || u == 0x2029 || u == 0x202F || u == 0x205F
    || u == 0x3000 || u == 0xFEFF
  }

  /** `!s.trim()`: s is empty or only white space. */
  predicate IsBlank(s: string)
    ensures IsBlank(s) <==> forall c :: c in s ==> IsJsWhitespace(c)
  {
    forall i :: 0 <= i < |s| ==> IsJsWhitespace(s[i])
  }

  /** The three badge colours the dashboards use for scores and rates. */
  datatype Band = Red | Yellow | Green {
    function Rank(): nat {
      match this
      case Red => 0
      case Yellow => 1
      case Green => 2
    }
  }

  /** `v >= greenFrom ? green : v >= yellowFrom ? yellow : red`. */
  function Banded(v: int, greenFrom: int, yellowFrom: int): (b: Band)
    requires yellowFrom <= greenFrom
    ensures b == Green <==> v >= greenFrom
    ensures b == Yellow <==> yellowFrom <= v < greenFrom
    ensures b == Red <==> v < yellowFrom
  {
    if v >= greenFrom then Green else if v >= yellowFrom then Yellow else Red
  }

  /** A larger value never gets a lower band. */
  lemma BandedMonotone(v: int, w: int, greenFrom: int, yellowFrom: int)
    requires yellowFrom <= greenFrom && v <= w
    ensures Banded(v, greenFrom, yellowFrom).Rank() <= Banded(w, greenFrom, yellowFrom).Rank()
  {
  }
}
