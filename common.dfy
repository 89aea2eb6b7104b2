/**
 * Shared vocabulary of the Travelogy model: optional values, JSON-like
 * request values with Python/JavaScript truthiness, sums, ASCII string
 * helpers, rounding, a descending sort and the "most frequent key, first
 * on ties" rule that Python's `max(d.items(), key=...)` implements over an
 * insertion-ordered dict.
 */
module Common {

  datatype Option<T> = None | Some(value: T)
  {
    function GetOr(default: T): (r: T)
      ensures Some? ==> r == value
      ensures None? ==> r == default
    {
      if Some? then value else default
    }
  }

  /** Time is counted in whole seconds since the Unix epoch, in UTC. */
  type Instant = int

  /** The hour of the day and the weekday (Monday = 0) of an instant, in UTC. */
  function HourOf(t: Instant): (r: int)
    ensures 0 <= r < 24
  {
    (t / 3600) % 24
  }

  function WeekdayOf(t: Instant): (r: int)
    ensures 0 <= r < 7
  {
    // 1 January 1970 was a Thursday
    (t / 86400 + 3) % 7
  }

  // ---------------------------------------------------------------------
  // JSON-like request values
  // ---------------------------------------------------------------------

  /**
   * A scalar coming out of a decoded JSON body. `JText` carries, next to
   * its characters, what Python's `float()` makes of them (None when the
   * text is not a number); parsing numerals is not modelled.
   * JSON `null` and a missing key are both `None` of `Option<JVal>`.
   */
  datatype JVal = JNum(n: real) | JText(text: string, asFloat: Option<real>) | JBool(b: bool)

  /** Python/JavaScript truthiness of an optional scalar. */
  predicate Truthy(v: Option<JVal>)
  {
    match v
    case None => false
    case Some(JNum(n)) => n != 0.0
    case Some(JText(s, _)) => s != ""
    case Some(JBool(b)) => b
  }

  /** Python's `a or b`: the first operand when truthy, else the second. */
  function Or(a: Option<JVal>, b: Option<JVal>): (r: Option<JVal>)
    ensures Truthy(a) ==> r == a
    ensures !Truthy(a) ==> r == b
  {
    if Truthy(a) then a else b
  }

  /** Python's `float(v)`: None when it raises. */
  function AsFloat(v: Option<JVal>): (r: Option<real>)
    ensures v.None? ==> r.None?
    ensures v.Some? && v.value.JNum? ==> r == Some(v.value.n)
  {
    match v
    case None => None
    case Some(JNum(n)) => Some(n)
    case Some(JText(_, f)) => f
    case Some(JBool(b)) => Some(if b then 1.0 else 0.0)
  }

  /** A response body that should hold a list: `{results: [...]}`, a bare list, or something else. */
  datatype Fetched<T> = Paged(results: seq<T>) | Bare(list: seq<T>) | NotList | Threw

  /** The list a response holds, if any. */
  function ListOf<T>(f: Fetched<T>): (r: Option<seq<T>>)
    ensures r.Some? <==> f.Paged? || f.Bare?
  {
    match f
    case Paged(results) => Some(results)
    case Bare(list) => Some(list)
    case _ => None
  }

  // ---------------------------------------------------------------------
  // Sums and counts
  // ---------------------------------------------------------------------

  /** Sum of `f` over a sequence, accumulated left to right. */
  function SumOf<T>(s: seq<T>, f: T -> real): real
  {
    if s == [] then 0.0 else SumOf(s[..|s| - 1], f) + f(s[|s| - 1])
  }

  function SumInts<T>(s: seq<T>, f: T -> int): int
  {
    if s == [] then 0 else SumInts(s[..|s| - 1], f) + f(s[|s| - 1])
  }

  lemma {:induction false} SumOfNonNegative<T>(s: seq<T>, f: T -> real)
    requires forall i :: 0 <= i < |s| ==> f(s[i]) >= 0.0
    ensures SumOf(s, f) >= 0.0
  {
    if s != [] {
      SumOfNonNegative(s[..|s| - 1], f);
    }
  }

  /** A sum of terms each at most `b` is at most `|s| * b`. */
  lemma {:induction false} SumOfAtMost<T>(s: seq<T>, f: T -> real, b: real)
    requires forall i :: 0 <= i < |s| ==> f(s[i]) <= b
    ensures SumOf(s, f) <= |s| as real * b
  {
    if s != [] {
      SumOfAtMost(s[..|s| - 1], f, b);
    }
  }

  lemma {:induction false} SumOfConcat<T>(a: seq<T>, b: seq<T>, f: T -> real)
    ensures SumOf(a + b, f) == SumOf(a, f) + SumOf(b, f)
  {
    if b != [] {
      assert (a + b)[..|a + b| - 1] == a + b[..|b| - 1];
      SumOfConcat(a, b[..|b| - 1], f);
    } else {
      assert a + b == a;
    }
  }

  /** Two sums agree when their terms agree position by position. */
  lemma {:induction false} SumOfPointwise<T, U>(s: seq<T>, f: T -> real, t: seq<U>, g: U -> real)
    requires |s| == |t|
    requires forall i :: 0 <= i < |s| ==> f(s[i]) == g(t[i])
    ensures SumOf(s, f) == SumOf(t, g)
  {
    if s != [] {
      SumOfPointwise(s[..|s| - 1], f, t[..|t| - 1], g);
    }
  }

  /** Replacing one term changes a sum by the difference of the two terms. */
  lemma {:induction false} SumOfUpdate<T>(s: seq<T>, i: nat, x: T, f: T -> real)
    requires i < |s|
    ensures SumOf(s[i := x], f) == SumOf(s, f) - f(s[i]) + f(x)
  {
    var n := |s| - 1;
    if i == n {
      assert s[i := x][..n] == s[..n];
    } else {
      assert s[i := x][..n] == s[..n][i := x];
      SumOfUpdate(s[..n], i, x, f);
    }
  }

  lemma SumOfAppend<T>(s: seq<T>, x: T, f: T -> real)
    ensures SumOf(s + [x], f) == SumOf(s, f) + f(x)
  {
    assert (s + [x])[..|s|] == s;
  }

  lemma {:induction false} SumIntsConcat<T>(a: seq<T>, b: seq<T>, f: T -> int)
    ensures SumInts(a + b, f) == SumInts(a, f) + SumInts(b, f)
  {
    if b != [] {
      assert (a + b)[..|a + b| - 1] == a + b[..|b| - 1];
      SumIntsConcat(a, b[..|b| - 1], f);
    } else {
      assert a + b == a;
    }
  }

  /** A sum does not depend on the order of its terms. */
  lemma {:induction false} SumIntsPermutation<T>(a: seq<T>, b: seq<T>, f: T -> int)
    requires multiset(a) == multiset(b)
    ensures SumInts(a, f) == SumInts(b, f)
    decreases |a|
  {
    if a == [] {
      assert |b| == |multiset(b)| == 0;
    } else {
      var x := a[|a| - 1];
      assert x in multiset(b);
      var i :| 0 <= i < |b| && b[i] == x;
      var rest := b[..i] + b[i + 1..];
      assert b == b[..i] + [x] + b[i + 1..];
      assert a == a[..|a| - 1] + [x];
      calc {
        multiset(rest) + multiset{x};
        multiset(b[..i]) + multiset(b[i + 1..]) + multiset{x};
        multiset(b[..i] + [x] + b[i + 1..]);
        multiset(a[..|a| - 1] + [x]);
        multiset(a[..|a| - 1]) + multiset{x};
      }
      assert multiset(rest) == multiset(rest) + multiset{x} - multiset{x};
      assert multiset(rest) == multiset(a[..|a| - 1]);
      SumIntsPermutation(a[..|a| - 1], rest, f);
      SumIntsConcat(b[..i] + [x], b[i + 1..], f);
      SumIntsConcat(b[..i], [x], f);
      SumIntsConcat(b[..i], b[i + 1..], f);
      assert SumInts([x], f) == f(x) by {
        assert [x][..0] == [];
      }
    }
  }

  /** Number of occurrences of `x` in `s`. */
  function Count<T(==)>(s: seq<T>, x: T): nat
  {
    if s == [] then 0 else Count(s[..|s| - 1], x) + (if s[|s| - 1] == x then 1 else 0)
  }

  lemma {:induction false} CountPositive<T>(s: seq<T>, x: T)
    ensures x in s <==> Count(s, x) > 0
  {
    if s != [] {
      CountPositive(s[..|s| - 1], x);
      assert s == s[..|s| - 1] + [s[|s| - 1]];
    }
  }

  /** Occurrences per key, as a dictionary of counts. */
  function Tally<T(==)>(keys: seq<T>): map<T, nat>
  {
    if keys == [] then map[]
    else
      var last := keys[|keys| - 1];
      Tally(keys[..|keys| - 1])[last := Count(keys, last)]
  }

  /** The tally has exactly the keys that occur, each with its number of occurrences. */
  lemma {:induction false} TallyCounts<T>(keys: seq<T>)
    ensures forall k :: k in Tally(keys) <==> k in keys
    ensures forall k :: k in Tally(keys) ==> Tally(keys)[k] == Count(keys, k)
  {
    if keys != [] {
      var init := keys[..|keys| - 1];
      var last := keys[|keys| - 1];
      TallyCounts(init);
      assert keys == init + [last];
      CountAppend(init, last);
    }
  }

  /** One more occurrence of `k` adds 1 to its count, starting from 0. */
  lemma TallyAppend<T>(keys: seq<T>, k: T)
    ensures Tally(keys + [k]) == Tally(keys)[k := (if k in Tally(keys) then Tally(keys)[k] else 0) + 1]
  {
    TallyCounts(keys);
    CountPositive(keys, k);
    CountAppend(keys, k);
    assert (keys + [k])[..|keys|] == keys;
  }

  /** The distinct elements of `s` in order of first occurrence. */
  function Distinct<T(==)>(s: seq<T>): seq<T>
  {
    if s == [] then []
    else
      var d := Distinct(s[..|s| - 1]);
      if s[|s| - 1] in d then d else d + [s[|s| - 1]]
  }

  lemma {:induction false} DistinctMembers<T>(s: seq<T>)
    ensures forall x :: x in Distinct(s) <==> x in s
  {
    if s != [] {
      DistinctMembers(s[..|s| - 1]);
      assert s == s[..|s| - 1] + [s[|s| - 1]];
    }
  }

  lemma {:induction false} DistinctNoDuplicates<T>(s: seq<T>)
    ensures forall a, b :: 0 <= a < b < |Distinct(s)| ==> Distinct(s)[a] != Distinct(s)[b]
  {
    if s != [] {
      DistinctNoDuplicates(s[..|s| - 1]);
    }
  }

  /** `Count` grows by one exactly at the appended element. */
  lemma CountAppend<T>(s: seq<T>, x: T)
    ensures forall k :: Count(s + [x], k) == Count(s, k) + (if x == k then 1 else 0)
  {
    assert (s + [x])[..|s|] == s;
  }

  /** `counts` holds exactly the keys of `s`, each with its number of occurrences. */
  ghost predicate Counted(counts: map<string, nat>, s: seq<string>)
  {
    (forall k :: k in counts <==> k in s) &&
    (forall k :: k in counts ==> counts[k] == Count(s, k))
  }

  /** One more key: its count goes up by one, or it enters with count 1. */
  lemma CountedStep(counts: map<string, nat>, s: seq<string>, x: string)
    requires Counted(counts, s)
    ensures x in counts ==> Counted(counts[x := counts[x] + 1], s + [x])
    ensures x !in counts ==> Counted(counts[x := 1], s + [x])
  {
    CountAppend(s, x);
    if x !in counts {
      CountPositive(s, x);
    }
  }

  /** The counts dict of the keys, and its keys in insertion order. */
  method CountKeys(keys: seq<string>) returns (order: seq<string>, counts: map<string, nat>)
    ensures order == Distinct(keys)
    ensures forall k :: k in counts <==> k in keys
    ensures forall k :: k in counts ==> counts[k] == Count(keys, k)
  {
    order := [];
    counts := map[];
    var i := 0;
    while i < |keys|
      invariant 0 <= i <= |keys|
      invariant order == Distinct(keys[..i])
      invariant Counted(counts, keys[..i])
    {
      var k := keys[i];
      assert keys[..i + 1] == keys[..i] + [k];
      assert keys[..i + 1][..i] == keys[..i];
      DistinctMembers(keys[..i]);
      CountedStep(counts, keys[..i], k);
      if k in counts {
        counts := counts[k := counts[k] + 1];
      } else {
        counts := counts[k := 1];
        order := order + [k];
      }
      i := i + 1;
    }
    assert keys[..i] == keys;
  }

  /**
   * `x` is the key Python's `max(counts.items(), key=lambda x: x[1])[0]`
   * picks when `counts` was filled from `keys` in order: a key of maximal
   * count such that every key inserted before it occurs fewer times.
   */
  ghost predicate FirstMostFrequent(keys: seq<string>, x: string)
  {
    && x in keys
    && (forall k :: k in keys ==> Count(keys, k) <= Count(keys, x))
    && (forall m, j :: 0 <= m < j < |Distinct(keys)| && Distinct(keys)[j] == x ==>
          Count(keys, Distinct(keys)[m]) < Count(keys, x))
  }

  /** At most one key is the first most frequent one: ties are settled. */
  lemma FirstMostFrequentUnique(keys: seq<string>, x: string, y: string)
    requires FirstMostFrequent(keys, x) && FirstMostFrequent(keys, y)
    ensures x == y
  {
    DistinctMembers(keys);
    var d := Distinct(keys);
    assert x in d && y in d;
    var i :| 0 <= i < |d| && d[i] == x;
    var j :| 0 <= j < |d| && d[j] == y;
    assert Count(keys, x) == Count(keys, y);
    assert i >= j;
    assert j >= i;
  }

  /** The key `max` picks over the counts of `keys`; None for no keys. */
  method MostFrequent(keys: seq<string>) returns (r: Option<string>)
    ensures r.None? <==> keys == []
    ensures r.Some? ==> FirstMostFrequent(keys, r.value)
  {
    var order, counts := CountKeys(keys);
    DistinctMembers(keys);
    DistinctNoDuplicates(keys);
    if order == [] {
      return None;
    }
    // max over the items, keeping the first maximal one
    var bi := 0;
    var j := 1;
    while j < |order|
      invariant 1 <= j <= |order|
      invariant 0 <= bi < j
      invariant forall m :: 0 <= m < j ==> counts[order[m]] <= counts[order[bi]]
      invariant forall m :: 0 <= m < bi ==> counts[order[m]] < counts[order[bi]]
    {
      if counts[order[j]] > counts[order[bi]] {
        bi := j;
      }
      j := j + 1;
    }
    r := Some(order[bi]);
  }

  // ---------------------------------------------------------------------
  // Ordering
  // ---------------------------------------------------------------------

  predicate SortedDesc<T>(s: seq<T>, key: T -> int)
  {
    forall i, j :: 0 <= i < j < |s| ==> key(s[i]) >= key(s[j])
  }

  /** Puts `x` before the first element whose key does not exceed its own. */
  function InsertDesc<T>(x: T, s: seq<T>, key: T -> int): (r: seq<T>)
    requires SortedDesc(s, key)
    ensures |r| == |s| + 1
    ensures r[0] == x || (s != [] && r[0] == s[0])
    ensures multiset(r) == multiset(s) + multiset{x}
  {
    if s == [] || key(s[0]) <= key(x) then [x] + s
    else
      var rest := InsertDesc(x, s[1..], key);
      assert s == [s[0]] + s[1..];
      [s[0]] + rest
  }

  /** Inserting into a sequence sorted by descending key keeps it sorted. */
  lemma {:induction false} InsertDescSorted<T>(x: T, s: seq<T>, key: T -> int)
    requires SortedDesc(s, key)
    ensures SortedDesc(InsertDesc(x, s, key), key)
  {
    if s != [] && key(s[0]) > key(x) {
      var rest := InsertDesc(x, s[1..], key);
      InsertDescSorted(x, s[1..], key);
      assert key(rest[0]) <= key(s[0]);
      var r := InsertDesc(x, s, key);
      assert r == [s[0]] + rest;
      forall i, j | 0 <= i < j < |r| ensures key(r[i]) >= key(r[j]) {
        if i > 0 {
          assert r[i] == rest[i - 1] && r[j] == rest[j - 1];
        } else {
          assert r[j] == rest[j - 1];
        }
      }
    }
  }

  /**
   * A stable insertion sort by descending key: the ordering a comparator
   * `(a, b) => key(b) - key(a)` gives.
   */
  function SortDesc<T>(s: seq<T>, key: T -> int): (r: seq<T>)
    ensures SortedDesc(r, key)
    ensures multiset(r) == multiset(s)
    ensures |r| == |s|
  {
    if s == [] then []
    else
      assert s == [s[0]] + s[1..];
      var sorted := SortDesc(s[1..], key);
      InsertDescSorted(s[0], sorted, key);
      InsertDesc(s[0], sorted, key)
  }

  // ---------------------------------------------------------------------
  // Numbers
  // ---------------------------------------------------------------------

  lemma MulNonNegative(a: real, b: real)
    requires a >= 0.0 && b >= 0.0
    ensures a * b >= 0.0
  {
  }

  lemma MulPositive(a: real, b: real)
    requires a > 0.0 && b > 0.0
    ensures a * b > 0.0
  {
  }

  /** Products of non-negative factors grow with the factors. */
  lemma MulAtMost(a: real, b: real, ha: real, hb: real)
    requires 0.0 <= a <= ha && 0.0 <= b <= hb
    ensures a * b <= ha * hb
  {
    MulNonNegative(ha - a, b);
    MulNonNegative(ha, hb - b);
    assert (ha - a) * b == ha * b - a * b;
    assert ha * (hb - b) == ha * hb - ha * b;
  }

  /** Rounds half up to a multiple of `1/unit` (`toFixed`, `round(x, n)`). */
  function RoundTo(x: real, unit: nat): (r: real)
    requires unit > 0
    ensures x - 1.0 / (2 * unit) as real < r <= x + 1.0 / (2 * unit) as real
    ensures x >= 0.0 ==> r >= 0.0
  {
    var scaled := (x * unit as real + 0.5).Floor;
    assert scaled as real <= x * unit as real + 0.5 < scaled as real + 1.0;
    scaled as real / unit as real
  }

  /** Python's `int(x)` on a float: truncation toward zero. */
  function Trunc(x: real): (r: int)
    ensures x >= 0.0 ==> 0 <= r && r as real <= x < r as real + 1.0
    ensures x < 0.0 ==> r <= 0 && r as real - 1.0 < x <= r as real
  {
    if x >= 0.0 then x.Floor else -((-x).Floor)
  }

  /** `Math.round`: halves round up. */
  function Round(x: real): (r: int)
    ensures x - 0.5 < r as real <= x + 0.5
  {
    (x + 0.5).Floor
  }

  function Clamp(lo: real, hi: real, x: real): (r: real)
    requires lo <= hi
    ensures lo <= r <= hi
    ensures lo <= x <= hi ==> r == x
    ensures x < lo ==> r == lo
    ensures hi < x ==> r == hi
  {
    if x < lo then lo else if x > hi then hi else x
  }

  // ---------------------------------------------------------------------
  // Strings (ASCII case mapping only)
  // ---------------------------------------------------------------------

  function LowerChar(c: char): char
  {
    if 'A' <= c <= 'Z' then (c as int + 32) as char else c
  }

  function Lower(s: string): (r: string)
    ensures |r| == |s|
    ensures forall i :: 0 <= i < |s| ==> r[i] == LowerChar(s[i])
  {
    if s == [] then [] else [LowerChar(s[0])] + Lower(s[1..])
  }

  predicate StartsWith(s: string, prefix: string)
  {
    |prefix| <= |s| && s[..|prefix|] == prefix
  }

  /** Python's `sub in s` for strings. */
  predicate Contains(s: string, sub: string)
  {
    exists i :: 0 <= i <= |s| - |sub| && OccursAt(s, sub, i)
  }

  predicate OccursAt(s: string, sub: string, i: int)
  {
    0 <= i <= |s| - |sub| && s[i..i + |sub|] == sub
  }

  predicate IsSpace(c: char)
  {
    c == ' ' || c == '\t' || c == '\n' || c == '\r'
  }

  function TrimStart(s: string): (r: string)
    ensures |r| <= |s| && r == s[|s| - |r|..]
    ensures forall i :: 0 <= i < |s| - |r| ==> IsSpace(s[i])
    ensures r == [] || !IsSpace(r[0])
  {
    if s != [] && IsSpace(s[0]) then
      var r := TrimStart(s[1..]);
      assert forall i :: 1 <= i < |s| - |r| ==> s[i] == s[1..][i - 1];
      r
    else s
  }

  function TrimEnd(s: string): (r: string)
    ensures |r| <= |s| && r == s[..|r|]
    ensures forall i :: |r| <= i < |s| ==> IsSpace(s[i])
    ensures r == [] || !IsSpace(r[|r| - 1])
  {
    if s != [] && IsSpace(s[|s| - 1]) then TrimEnd(s[..|s| - 1]) else s
  }

  /** Python's `str.strip()` / JavaScript's `trim()` on ASCII whitespace. */
  function Trim(s: string): (r: string)
    ensures r == [] || (!IsSpace(r[0]) && !IsSpace(r[|r| - 1]))
    ensures exists a :: 0 <= a <= |s| - |r| && r == s[a..a + |r|] && TrimmedAt(s, a, |r|)
  {
    var t := TrimStart(s);
    var r := TrimEnd(t);
    assert r == s[|s| - |t|..|s| - |t| + |r|];
    assert TrimmedAt(s, |s| - |t|, |r|);
    r
  }

  /** `s[a..a + n]` is `s` with only white space removed before and after it. */
  predicate TrimmedAt(s: string, a: int, n: int)
    requires 0 <= a && 0 <= n && a + n <= |s|
  {
    (forall i :: 0 <= i < a ==> IsSpace(s[i])) &&
    (forall i :: a + n <= i < |s| ==> IsSpace(s[i]))
  }

  /** Every character `from` becomes `to`. */
  function ReplaceChar(s: string, from: char, to: char): (r: string)
    ensures |r| == |s|
    ensures forall i :: 0 <= i < |s| ==> r[i] == (if s[i] == from then to else s[i])
  {
    if s == [] then [] else [if s[0] == from then to else s[0]] + ReplaceChar(s[1..], from, to)
  }

  /** Decimal rendering of a non-negative integer. */
  function NatToString(n: nat): (r: string)
    ensures r != []
    ensures forall i :: 0 <= i < |r| ==> '0' <= r[i] <= '9'
  {
    if n < 10 then [('0' as int + n) as char]
    else NatToString(n / 10) + [('0' as int + n % 10) as char]
  }

  /** A subset is no larger than the set around it. */
  lemma {:induction false} SubsetSize<T>(a: set<T>, b: set<T>)
    requires a <= b
    ensures |a| <= |b|
    decreases |b|
  {
    if a != {} {
      var x :| x in a;
      SubsetSize(a - {x}, b - {x});
    }
  }

  /** Different numbers render differently, so `base1`, `base2`, ... are distinct names. */
  lemma {:induction false} NatToStringInjective(m: nat, n: nat)
    requires NatToString(m) == NatToString(n)
    ensures m == n
  {
    if m >= 10 && n >= 10 {
      var a, b := NatToString(m), NatToString(n);
      assert a[|a| - 1] == b[|b| - 1];
      assert NatToString(m / 10) == a[..|a| - 1] == b[..|b| - 1] == NatToString(n / 10);
      NatToStringInjective(m / 10, n / 10);
    }
  }

  /** The text before the first `c` (all of `s` when there is none): Python's `s.split(c)[0]`. */
  function UpTo(s: string, c: char): (r: string)
    ensures c !in r
    ensures |r| <= |s| && r == s[..|r|]
    ensures r == s || s[|r|] == c
  {
    if s == [] || s[0] == c then [] else [s[0]] + UpTo(s[1..], c)
  }

  /** The text before the first `c` of `a + [c] + b` is `a` when `a` has no `c`. */
  lemma {:induction false} UpToFirst(a: string, b: string, c: char)
    requires c !in a
    ensures UpTo(a + [c] + b, c) == a
  {
    if a != [] {
      assert (a + [c] + b)[1..] == a[1..] + [c] + b;
      UpToFirst(a[1..], b, c);
    }
  }

  /** JavaScript's `s.split(c)`: the pieces between the occurrences of `c`, at least one. */
  function Split(s: string, c: char): (r: seq<string>)
    ensures |r| >= 1 && r[0] == UpTo(s, c)
    ensures forall k :: 0 <= k < |r| ==> c !in r[k]
    decreases |s|
  {
    var first := UpTo(s, c);
    if |first| == |s| then [s] else [first] + Split(s[|first| + 1..], c)
  }

  /** Text with exactly one `c` splits into the two sides. */
  lemma SplitTwo(a: string, b: string, c: char)
    requires c !in a && c !in b
    ensures Split(a + [c] + b, c) == [a, b]
  {
    UpToFirst(a, b, c);
    assert (a + [c] + b)[|a| + 1..] == b;
  }

  /** JavaScript's `parts.join(c)`. */
  function Join(parts: seq<string>, c: char): string
  {
    if parts == [] then []
    else if |parts| == 1 then parts[0]
    else parts[0] + [c] + Join(parts[1..], c)
  }

  /** Joining the pieces of a split gives back the text. */
  lemma {:induction false} JoinSplit(s: string, c: char)
    ensures Join(Split(s, c), c) == s
    decreases |s|
  {
    var first := UpTo(s, c);
    if |first| < |s| {
      var rest := s[|first| + 1..];
      var parts := Split(s, c);
      assert parts == [first] + Split(rest, c);
      assert |parts| >= 2 && parts[0] == first && parts[1..] == Split(rest, c);
      assert Join(parts, c) == first + [c] + Join(Split(rest, c), c);
      JoinSplit(rest, c);
      assert s == s[..|first|] + [s[|first|]] + rest;
    }
  }

  /** The parts joined with no separator (JavaScript `join('')`). */
  function Concat<T>(parts: seq<seq<T>>): seq<T>
  {
    if parts == [] then [] else Concat(parts[..|parts| - 1]) + parts[|parts| - 1]
  }

  lemma {:induction false} ConcatAppend<T>(a: seq<seq<T>>, b: seq<seq<T>>)
    ensures Concat(a + b) == Concat(a) + Concat(b)
  {
    if b == [] {
      assert a + b == a;
    } else {
      var init := b[..|b| - 1];
      ConcatAppend(a, init);
      assert (a + b)[..|a + b| - 1] == a + init;
    }
  }

  /** A part sits between the parts before it and the parts after it. */
  lemma ConcatAround<T>(before: seq<seq<T>>, part: seq<T>, after: seq<seq<T>>)
    ensures Concat(before + [part] + after) == Concat(before) + part + Concat(after)
  {
    ConcatAppend(before + [part], after);
    assert (before + [part])[..|before|] == before;
  }

}
