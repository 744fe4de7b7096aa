/** Shared vocabulary of the producer and consumer scripts: optional values,
    the Python exceptions the scripts can raise, Python's string order,
    Python's insertion-ordered dict and the sorting done by `sorted()` and
    `list.sort()`. */
module Common {

  datatype Option<T> = None | Some(value: T)

  /** The Python exceptions that the modelled code can raise. None of the
      scripts catches them locally, so each one ends the enclosing run. */
  datatype Error =
    | ZeroDivision      // ZeroDivisionError
    | IndexOutOfRange   // IndexError
    | MissingKey        // KeyError
    | Exhausted         // StopIteration from next() on an exhausted iterator
    | BadValue          // ValueError from int() or float() on a malformed cell
    | NotSubscriptable  // TypeError from subscripting None

  /** A value or the exception raised while computing it; `:-` propagates
      the exception as Python does. */
  datatype Result<T> = Ok(value: T) | Err(error: Error)
  {
    predicate IsFailure()
    {
      Err?
    }

    function PropagateFailure<U>(): Result<U>
      requires Err?
    {
      Err(error)
    }

    function Extract(): T
      requires Ok?
    {
      value
    }
  }

  // ---------------------------------------------------------------------------
  // Python's `<` on str: lexicographic comparison of code points. ISO dates
  // "YYYY-MM-DD" compare chronologically under it. (Dafny's own `<` on
  // sequences means "proper prefix", which is a different relation.)

  predicate StrLess(a: string, b: string)
  {
    if |a| == 0 then |b| > 0
    else if |b| == 0 then false
    else if a[0] == b[0] then StrLess(a[1..], b[1..])
    else a[0] < b[0]
  }

  lemma {:induction false} StrLessIrreflexive(a: string)
    ensures !StrLess(a, a)
  {
    if |a| > 0 {
      StrLessIrreflexive(a[1..]);
    }
  }

  lemma {:induction false} StrLessTransitive(a: string, b: string, c: string)
    requires StrLess(a, b) && StrLess(b, c)
    ensures StrLess(a, c)
  {
    if |a| > 0 && |b| > 0 && |c| > 0 && a[0] == b[0] && b[0] == c[0] {
      StrLessTransitive(a[1..], b[1..], c[1..]);
    }
  }

  /** Any two different strings are ordered one way or the other. */
  lemma {:induction false} StrLessTotal(a: string, b: string)
    requires a != b
    ensures StrLess(a, b) || StrLess(b, a)
  {
    if |a| > 0 && |b| > 0 && a[0] == b[0] {
      assert a == [a[0]] + a[1..] && b == [b[0]] + b[1..];
      StrLessTotal(a[1..], b[1..]);
    }
  }

  lemma {:induction false} StrLessAsymmetric(a: string, b: string)
    requires StrLess(a, b)
    ensures !StrLess(b, a)
  {
    if |a| > 0 && |b| > 0 && a[0] == b[0] {
      StrLessAsymmetric(a[1..], b[1..]);
    }
  }

  // ---------------------------------------------------------------------------
  // `sorted()` / `list.sort()`: an ascending, stable sort. It is modelled as an
  // insertion sort; the lemmas below give the two facts the scripts rely on.

  predicate StrAscending(s: seq<string>)
  {
    forall i, j :: 0 <= i < j < |s| ==> StrLess(s[i], s[j])
  }

  predicate Distinct<T(==)>(s: seq<T>)
  {
    forall i, j :: 0 <= i < j < |s| ==> s[i] != s[j]
  }

  function InsertStr(x: string, s: seq<string>): seq<string>
  {
    if s == [] then [x]
    else if StrLess(x, s[0]) then [x] + s
    else [s[0]] + InsertStr(x, s[1..])
  }

  function SortStrings(s: seq<string>): seq<string>
  {
    if s == [] then [] else InsertStr(s[|s| - 1], SortStrings(s[..|s| - 1]))
  }

  lemma {:induction false} InsertStrMultiset(x: string, s: seq<string>)
    ensures multiset(InsertStr(x, s)) == multiset(s) + multiset{x}
  {
    if s != [] && !StrLess(x, s[0]) {
      assert s == [s[0]] + s[1..];
      InsertStrMultiset(x, s[1..]);
    }
  }

  /** Inserting above a lower bound of all elements keeps the bound. */
  lemma {:induction false} InsertStrAbove(x: string, s: seq<string>, lo: string)
    requires StrLess(lo, x)
    requires forall i :: 0 <= i < |s| ==> StrLess(lo, s[i])
    ensures forall i :: 0 <= i < |InsertStr(x, s)| ==> StrLess(lo, InsertStr(x, s)[i])
  {
    if s != [] && !StrLess(x, s[0]) {
      InsertStrAbove(x, s[1..], lo);
    }
  }

  lemma {:induction false} InsertStrAscending(x: string, s: seq<string>)
    requires StrAscending(s)
    requires x !in s
    ensures StrAscending(InsertStr(x, s))
  {
    if s != [] && !StrLess(x, s[0]) {
      assert x != s[0];
      StrLessTotal(x, s[0]);
      assert forall e :: e in s[1..] ==> e in s;
      InsertStrAscending(x, s[1..]);
      InsertStrAbove(x, s[1..], s[0]);
    } else if s != [] {
      forall k | 0 < k < |s| + 1
        ensures StrLess(x, ([x] + s)[k])
      {
        if k > 1 {
          StrLessTransitive(x, s[0], s[k - 1]);
        }
      }
    }
  }

  lemma {:induction false} InsertStrKeeps(x: string, s: seq<string>)
    requires StrAscending(s)
    requires x !in s
    ensures multiset(InsertStr(x, s)) == multiset(s) + multiset{x}
    ensures StrAscending(InsertStr(x, s))
  {
    InsertStrMultiset(x, s);
    InsertStrAscending(x, s);
  }

  /** The sorted keys of a dict are its keys in strictly ascending order. */
  lemma {:induction false} SortStringsAscending(s: seq<string>)
    requires Distinct(s)
    ensures multiset(SortStrings(s)) == multiset(s)
    ensures StrAscending(SortStrings(s))
  {
    if s != [] {
      var init := s[..|s| - 1];
      assert s == init + [s[|s| - 1]];
      SortStringsAscending(init);
      forall m | 0 <= m < |init|
        ensures init[m] != s[|s| - 1]
      {
        assert init[m] == s[m];
      }
      assert s[|s| - 1] !in multiset(SortStrings(init));
      InsertStrKeeps(s[|s| - 1], SortStrings(init));
    }
  }

  predicate IntAscending(s: seq<int>)
  {
    forall i, j :: 0 <= i < j < |s| ==> s[i] < s[j]
  }

  function InsertInt(x: int, s: seq<int>): seq<int>
  {
    if s == [] then [x]
    else if x < s[0] then [x] + s
    else [s[0]] + InsertInt(x, s[1..])
  }

  function SortInts(s: seq<int>): seq<int>
  {
    if s == [] then [] else InsertInt(s[|s| - 1], SortInts(s[..|s| - 1]))
  }

  lemma {:induction false} InsertIntMultiset(x: int, s: seq<int>)
    ensures multiset(InsertInt(x, s)) == multiset(s) + multiset{x}
  {
    if s != [] && x >= s[0] {
      assert s == [s[0]] + s[1..];
      InsertIntMultiset(x, s[1..]);
    }
  }

  /** Inserting above a lower bound of all elements keeps the bound. */
  lemma {:induction false} InsertIntAbove(x: int, s: seq<int>, lo: int)
    requires lo < x
    requires forall i :: 0 <= i < |s| ==> lo < s[i]
    ensures forall i :: 0 <= i < |InsertInt(x, s)| ==> lo < InsertInt(x, s)[i]
  {
    if s != [] && x >= s[0] {
      InsertIntAbove(x, s[1..], lo);
    }
  }

  lemma {:induction false} InsertIntAscending(x: int, s: seq<int>)
    requires IntAscending(s)
    requires x !in s
    ensures IntAscending(InsertInt(x, s))
  {
    if s != [] && x >= s[0] {
      assert x != s[0];
      assert forall e :: e in s[1..] ==> e in s;
      InsertIntAscending(x, s[1..]);
      InsertIntAbove(x, s[1..], s[0]);
    }
  }

  lemma {:induction false} InsertIntKeeps(x: int, s: seq<int>)
    requires IntAscending(s)
    requires x !in s
    ensures multiset(InsertInt(x, s)) == multiset(s) + multiset{x}
    ensures IntAscending(InsertInt(x, s))
  {
    InsertIntMultiset(x, s);
    InsertIntAscending(x, s);
  }

  /** `sorted()` of distinct integers: the same integers, strictly ascending. */
  lemma {:induction false} SortIntsAscending(s: seq<int>)
    requires Distinct(s)
    ensures multiset(SortInts(s)) == multiset(s)
    ensures IntAscending(SortInts(s))
  {
    if s != [] {
      var init := s[..|s| - 1];
      assert s == init + [s[|s| - 1]];
      SortIntsAscending(init);
      forall m | 0 <= m < |init|
        ensures init[m] != s[|s| - 1]
      {
        assert init[m] == s[m];
      }
      assert s[|s| - 1] !in multiset(SortInts(init));
      InsertIntKeeps(s[|s| - 1], SortInts(init));
    }
  }

  // ---------------------------------------------------------------------------
  // Python dict: a map whose keys remember their first insertion. Assigning
  // to an existing key replaces the value and keeps the key's position.

  datatype Dict<K(!new), V> = Dict(keys: seq<K>, entries: map<K, V>)
  {
    ghost predicate Valid()
    {
      Distinct(keys) && (forall k :: k in entries <==> k in keys)
    }
  }

  function EmptyDict<K(!new), V>(): (d: Dict<K, V>)
    ensures d.Valid() && d.keys == [] && d.entries == map[]
  {
    Dict([], map[])
  }

  /** `d[k] = v` */
  function Put<K(!new), V>(d: Dict<K, V>, k: K, v: V): (r: Dict<K, V>)
    ensures d.Valid() ==> r.Valid()
    ensures r.entries == d.entries[k := v]
    ensures r.keys == if k in d.entries then d.keys else d.keys + [k]
  {
    if k in d.entries then Dict(d.keys, d.entries[k := v])
    else Dict(d.keys + [k], d.entries[k := v])
  }

  /** `d[k].append(x)` on a `defaultdict(list)` */
  function AppendAt<K(!new), V>(d: Dict<K, seq<V>>, k: K, x: V): (r: Dict<K, seq<V>>)
    requires d.Valid()
    ensures r.Valid()
    ensures r.entries == d.entries[k := (if k in d.entries then d.entries[k] else []) + [x]]
    ensures r.keys == if k in d.entries then d.keys else d.keys + [k]
  {
    Put(d, k, (if k in d.entries then d.entries[k] else []) + [x])
  }

  /** A list without repeats has as many distinct elements as entries. */
  lemma {:induction false} DistinctCount<T>(s: seq<T>)
    requires Distinct(s)
    ensures |set x | x in s| == |s|
    decreases |s|
  {
    if s != [] {
      var init := s[..|s| - 1];
      assert Distinct(init) by {
        forall i, j | 0 <= i < j < |init| ensures init[i] != init[j] {
          assert init[i] == s[i] && init[j] == s[j];
        }
      }
      DistinctCount(init);
      assert s == init + [s[|s| - 1]];
      assert (set x | x in s) == (set x | x in init) + {s[|s| - 1]};
    }
  }

  /** A dict has one key in its insertion order per entry: `len(d.keys())
      == len(d)`. */
  lemma {:induction false} DictSize<K(!new), V>(d: Dict<K, V>)
    requires d.Valid()
    ensures |d.keys| == |d.entries|
  {
    DistinctCount(d.keys);
    assert d.entries.Keys == set x | x in d.keys;
  }

  // ---------------------------------------------------------------------------
  // Python slices `s[:n]` and `s[n:]`, which never fail: a bound past the end
  // is clipped to the length.

  function Take<T>(s: seq<T>, n: nat): (r: seq<T>)
    ensures |r| == if |s| <= n then |s| else n
    ensures r <= s
  {
    if |s| <= n then s else s[..n]
  }

  function Drop<T>(s: seq<T>, n: nat): (r: seq<T>)
    ensures |r| == if |s| <= n then 0 else |s| - n
    ensures Take(s, n) + r == s
  {
    if |s| <= n then [] else s[n..]
  }

  // ---------------------------------------------------------------------------
  // Sums

  function SumReals(s: seq<real>): real
  {
    if s == [] then 0.0 else SumReals(s[..|s| - 1]) + s[|s| - 1]
  }

  function SumInts(s: seq<int>): int
  {
    if s == [] then 0 else SumInts(s[..|s| - 1]) + s[|s| - 1]
  }

  // ---------------------------------------------------------------------------
  // Numbers

  /** Python's `int(x)` on a float: truncation toward zero. */
  function TruncateToInt(x: real): (n: int)
    ensures x >= 0.0 ==> n as real <= x < n as real + 1.0
    ensures x < 0.0 ==> n as real - 1.0 < x <= n as real
  {
    if x >= 0.0 then x.Floor else -((-x).Floor)
  }

  // ---------------------------------------------------------------------------
  // MONICA output records and Python's failing accesses

  /** One record of MONICA output, a JSON object: its text values, number
      values and per-layer lists by name. */
  datatype Entry = Entry(texts: map<string, string>, numbers: map<string, real>, series: map<string, seq<real>>)

  /** `d[k]`: KeyError when the key is absent. */
  function Lookup<V>(m: map<string, V>, k: string): Result<V>
  {
    if k in m then Ok(m[k]) else Err(MissingKey)
  }

  /** `s[k]`: IndexError past the end. */
  function At<T>(s: seq<T>, k: nat): Result<T>
  {
    if k < |s| then Ok(s[k]) else Err(IndexOutOfRange)
  }

  /** `range(n)` */
  function Range(n: nat): (r: seq<nat>)
    ensures |r| == n && forall i :: 0 <= i < n ==> r[i] == i
  {
    seq(n, i requires 0 <= i < n => i)
  }

  /** A `for` loop that appends one item per element and may raise: it
      yields every item, or the exception of the first element that
      raises. */
  function MapOk<T, R>(xs: seq<T>, f: T -> Result<R>): (r: Result<seq<R>>)
    ensures r.Ok? <==> forall i :: 0 <= i < |xs| ==> f(xs[i]).Ok?
    ensures r.Ok? ==> |r.value| == |xs| && forall i :: 0 <= i < |xs| ==> r.value[i] == f(xs[i]).value
    ensures r.Err? ==> exists i :: 0 <= i < |xs| && f(xs[i]) == Err(r.error) && forall j :: 0 <= j < i ==> f(xs[j]).Ok?
  {
    if xs == [] then Ok([])
    else
      var init := xs[..|xs| - 1];
      assert forall i :: 0 <= i < |init| ==> init[i] == xs[i];
      var items :- MapOk(init, f);
      var last :- f(xs[|xs| - 1]);
      Ok(items + [last])
  }

  lemma {:induction false} AppendAssociative<J>(a: seq<J>, b: seq<J>, c: seq<J>)
    ensures a + b + c == a + (b + c)
  {
  }

  lemma {:induction false} TakeSnoc<T>(xs: seq<T>, n: nat)
    requires 0 < n <= |xs|
    ensures xs[..n] == xs[..n - 1] + [xs[n - 1]]
  {
  }

  lemma {:induction false} ConcatTail<T>(a: seq<T>, b: seq<T>)
    requires a != []
    ensures (a + b)[0] == a[0] && (a + b)[1..] == a[1..] + b
  {
  }

  lemma {:induction false} MultiplySucc(n: nat, m: nat)
    ensures n * (m + 1) == n * m + n
  {
  }

  lemma {:induction false} MultiplyBelow(n: nat, d: nat, m: nat)
    requires d < m
    ensures n * d + n <= n * m
  {
    MultiplySucc(n, d);
    assert n * (d + 1) <= n * m by {
      var k := m - (d + 1);
      assert n * m == n * (d + 1) + n * k;
    }
  }

  // ---------------------------------------------------------------------------
  // Decimal text of a number, as `str(n)` writes it

  function DigitChar(d: nat): char
    requires d < 10
  {
    (48 + d) as char
  }

  /** `str(n)` */
  function NatToString(n: nat): (s: string)
    ensures |s| >= 1 && (n >= 10 ==> |s| >= 2)
    ensures forall i :: 0 <= i < |s| ==> '0' <= s[i] <= '9'
  {
    if n < 10 then [DigitChar(n)] else NatToString(n / 10) + [DigitChar(n % 10)]
  }

  /** Different counts are written differently. */
  lemma {:induction false} NatToStringInjective(a: nat, b: nat)
    requires NatToString(a) == NatToString(b)
    ensures a == b
  {
    if a >= 10 && b >= 10 {
      var sa := NatToString(a);
      assert sa[..|sa| - 1] == NatToString(a / 10);
      assert NatToString(b)[..|sa| - 1] == NatToString(b / 10);
      NatToStringInjective(a / 10, b / 10);
    }
  }
}
