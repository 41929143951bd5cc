/**
 * Values shared by every part of the model: optional values, the outcome of
 * an operation that can throw, and the few base-library text helpers that the
 * C# code relies on (ordinal and case-insensitive comparison, substring search,
 * decimal rendering of integers).
 */
module Common {

  datatype Option<T> = None | Some(value: T)

  /** The exception classes the modelled code raises on its error paths. */
  datatype Failure =
    | ArgumentOutOfRange      // List indexer, Enumerable.Chunk(0), Enumerable.Min on an empty list
    | Argument                // ArgumentException
    | InvalidOperation        // InvalidOperationException, Enumerable.Single / First without a unique match
    | InvalidCast             // a malformed processor-information block
    | NotImplemented          // NotImplementedException
    | Win32                   // Win32Exception
    | UnsupportedCpu          // the program's own UnsupportedCpu exception
    | NullReference           // NullReferenceException

  datatype Result<T> = Ok(value: T) | Err(failure: Failure)

  /**
   * Simple upper-case mapping of one character, as StringComparison.OrdinalIgnoreCase
   * applies it; only the ASCII letters are mapped.
   */
  function ToUpperAscii(c: char): char
  {
    if 'a' <= c <= 'z' then (c as int - 32) as char else c
  }

  /** String.Equals(a, b, StringComparison.OrdinalIgnoreCase). */
  predicate EqualsIgnoreCase(a: string, b: string)
  {
    |a| == |b| && forall i :: 0 <= i < |a| ==> ToUpperAscii(a[i]) == ToUpperAscii(b[i])
  }

  /** Case-insensitive equality is an equivalence relation that contains ordinal equality. */
  lemma EqualsIgnoreCaseIsEquivalence(a: string, b: string, c: string)
    ensures a == b ==> EqualsIgnoreCase(a, b)
    ensures EqualsIgnoreCase(a, b) ==> EqualsIgnoreCase(b, a)
    ensures EqualsIgnoreCase(a, b) && EqualsIgnoreCase(b, c) ==> EqualsIgnoreCase(a, c)
  {
  }

  /** String.StartsWith(prefix), ordinal. */
  predicate StartsWith(s: string, prefix: string)
  {
    |prefix| <= |s| && s[..|prefix|] == prefix
  }

  /** part occurs in s at offset i, ignoring case. */
  predicate OccursAtIgnoreCase(s: string, part: string, i: int)
  {
    0 <= i <= |s| - |part| && EqualsIgnoreCase(s[i..i + |part|], part)
  }

  /** String.Contains(part, StringComparison.OrdinalIgnoreCase). */
  predicate ContainsIgnoreCase(s: string, part: string)
  {
    exists i :: 0 <= i <= |s| - |part| && OccursAtIgnoreCase(s, part, i)
  }

  function DigitChar(d: nat): char
    requires d < 10
  {
    ('0' as int + d) as char
  }

  /** Int32.ToString(CultureInfo.InvariantCulture) for a non-negative value. */
  function NatToString(n: nat): (s: string)
    ensures |s| >= 1
    ensures forall i :: 0 <= i < |s| ==> '0' <= s[i] <= '9'
    decreases n
  {
    if n < 10 then [DigitChar(n)] else NatToString(n / 10) + [DigitChar(n % 10)]
  }

  /** Keep the elements of s that satisfy p, in order (Enumerable.Where). */
  function Filter<T>(s: seq<T>, p: T -> bool): (r: seq<T>)
    ensures |r| <= |s|
    ensures forall x :: x in r ==> x in s && p(x)
    ensures forall x :: x in s && p(x) ==> x in r
  {
    if |s| == 0 then [] else if p(s[0]) then [s[0]] + Filter(s[1..], p) else Filter(s[1..], p)
  }

  /** Number of occurrences of x in s. */
  function Count<T(==)>(s: seq<T>, x: T): nat
  {
    if |s| == 0 then 0 else (if s[0] == x then 1 else 0) + Count(s[1..], x)
  }

  /** List.Remove(x): drop the first occurrence of x, if any. */
  function RemoveFirst<T(==)>(s: seq<T>, x: T): (r: seq<T>)
    ensures x in s ==> |r| == |s| - 1
    ensures x !in s ==> r == s
    ensures multiset(r) == multiset(s) - multiset{x}
    ensures forall y :: y in r ==> y in s
  {
    if |s| == 0 then []
    else if s[0] == x then
      assert s == [s[0]] + s[1..];
      s[1..]
    else
      assert s == [s[0]] + s[1..];
      [s[0]] + RemoveFirst(s[1..], x)
  }

  /** Two filters with complementary predicates split a list: every element lands in exactly one of them. */
  lemma {:induction false} FilterPartition<T>(s: seq<T>, p: T -> bool, q: T -> bool)
    requires forall x :: x in s ==> q(x) == !p(x)
    ensures multiset(Filter(s, p)) + multiset(Filter(s, q)) == multiset(s)
  {
    if |s| > 0 {
      var t := s[1..];
      assert s == [s[0]] + t;
      assert q(s[0]) == !p(s[0]);
      FilterPartition(t, p, q);
      assert multiset(s) == multiset{s[0]} + multiset(t);
      if p(s[0]) {
        assert Filter(s, p) == [s[0]] + Filter(t, p) && Filter(s, q) == Filter(t, q);
      } else {
        assert Filter(s, q) == [s[0]] + Filter(t, q) && Filter(s, p) == Filter(t, p);
      }
    }
  }

  /** Filtering with two predicates that agree on the list gives the same result. */
  lemma {:induction false} FilterSame<T>(s: seq<T>, p: T -> bool, q: T -> bool)
    requires forall x :: x in s ==> q(x) == p(x)
    ensures Filter(s, p) == Filter(s, q)
  {
    if |s| > 0 {
      FilterSame(s[1..], p, q);
    }
  }

  /** Filtering with a predicate that holds everywhere keeps the list. */
  lemma {:induction false} FilterAll<T>(s: seq<T>)
    ensures Filter(s, (x: T) => true) == s
  {
    if |s| > 0 {
      FilterAll(s[1..]);
    }
  }
  /** Enumerable.FirstOrDefault(predicate), as the position of the first element from k on that satisfies p. */
  function FirstIndexFrom<T>(s: seq<T>, p: T -> bool, k: nat): (r: Option<nat>)
    requires k <= |s|
    decreases |s| - k
    ensures r.Some? ==> k <= r.value < |s| && p(s[r.value]) && forall j :: k <= j < r.value ==> !p(s[j])
    ensures r.None? ==> forall j :: k <= j < |s| ==> !p(s[j])
  {
    if k == |s| then None else if p(s[k]) then Some(k) else FirstIndexFrom(s, p, k + 1)
  }

  /** The position of the first element of s that satisfies p. */
  function FirstIndex<T>(s: seq<T>, p: T -> bool): (r: Option<nat>)
    ensures r.Some? ==> r.value < |s| && p(s[r.value]) && forall j :: 0 <= j < r.value ==> !p(s[j])
    ensures r.None? ==> forall j :: 0 <= j < |s| ==> !p(s[j])
  {
    FirstIndexFrom(s, p, 0)
  }

  /** Appending to a list keeps an earlier first match, and an appended match is found when nothing matched before. */
  lemma FirstIndexAppend<T>(s: seq<T>, x: T, p: T -> bool)
    ensures FirstIndex(s, p).Some? ==> FirstIndex(s + [x], p) == FirstIndex(s, p)
    ensures FirstIndex(s, p).None? && p(x) ==> FirstIndex(s + [x], p) == Some(|s|)
    ensures FirstIndex(s, p).None? && !p(x) ==> FirstIndex(s + [x], p).None?
  {
    var r, r' := FirstIndex(s, p), FirstIndex(s + [x], p);
    if r'.Some? && r'.value < |s| {
      assert (s + [x])[r'.value] == s[r'.value];
    }
    if r.Some? {
      assert (s + [x])[r.value] == s[r.value];
    }
    if r'.None? {
      assert (s + [x])[|s|] == x;
    }
  }

  /** Subtraction that stops at zero, like removing a handler that is no longer subscribed. */
  function SaturatingSub(a: nat, b: nat): nat
  {
    if a >= b then a - b else 0
  }

  /** Counting over a longer prefix adds the one new element. */
  lemma {:induction false} CountSnoc<T>(s: seq<T>, x: T, y: T)
    ensures Count(s + [x], y) == Count(s, y) + (if x == y then 1 else 0)
  {
    if |s| > 0 {
      CountSnoc(s[1..], x, y);
      assert (s + [x])[1..] == s[1..] + [x];
    }
  }

  /** Taking one more element of a sequence appends that element. */
  lemma TakeOneMore<T>(s: seq<T>, i: nat)
    requires i < |s|
    ensures s[..i] + [s[i]] == s[..i + 1]
  {
  }

  /** Taking every element of a sequence gives the sequence. */
  lemma TakeAll<T>(s: seq<T>, i: nat)
    requires i == |s|
    ensures s[..i] == s
  {
  }

  /** Concatenation is associative. */
  lemma AppendAssociates<T>(a: seq<T>, b: seq<T>, c: seq<T>)
    ensures (a + b) + c == a + (b + c)
  {
  }

  /** Dropping a prefix commutes with appending at the end. */
  lemma DropThenAppend<T>(s: seq<T>, k: nat, x: T)
    requires k <= |s|
    ensures (s + [x])[k..] == s[k..] + [x]
  {
  }

  /**
   * The loop `for (i = list.Count - 1; i >= 0; --i) if (!keep(list[i])) list.RemoveAt(i);`:
   * walking from the back, it drops every element that fails keep and keeps the rest in order.
   */
  method RemoveAtFromBack<T>(s: seq<T>, keep: T -> bool) returns (r: seq<T>)
    ensures r == Filter(s, keep)
  {
    r := s;
    var i := |s|;
    while i > 0
      invariant 0 <= i <= |s|
      invariant r == s[..i] + Filter(s[i..], keep)
    {
      i := i - 1;
      RemoveAtFromBackStep(s, i, keep, r);
      if !keep(r[i]) {
        r := r[..i] + r[i + 1..];
      }
    }
    assert s[0..] == s;
  }

  /** One step of RemoveAtFromBack: element i is kept, or removed with RemoveAt(i). */
  lemma RemoveAtFromBackStep<T>(s: seq<T>, i: nat, keep: T -> bool, r: seq<T>)
    requires i < |s| && r == s[..i + 1] + Filter(s[i + 1..], keep)
    ensures i < |r| && r[i] == s[i]
    ensures keep(s[i]) ==> r == s[..i] + Filter(s[i..], keep)
    ensures !keep(s[i]) ==> r[..i] + r[i + 1..] == s[..i] + Filter(s[i..], keep)
  {
    assert s[i..][1..] == s[i + 1..] && s[i..][0] == s[i];
    assert s[..i + 1] == s[..i] + [s[i]];
    if !keep(s[i]) {
      assert r[..i] == s[..i];
      assert r[i + 1..] == Filter(s[i + 1..], keep);
    }
  }

  /** A foreach loop that stops at the first element satisfying p: the position it stops at. */
  method FindFirst<T>(s: seq<T>, p: T -> bool) returns (r: Option<nat>)
    ensures r == FirstIndex(s, p)
  {
    var i := 0;
    while i < |s|
      invariant i <= |s|
      invariant FirstIndexFrom(s, p, i) == FirstIndex(s, p)
    {
      if p(s[i]) {
        return Some(i);
      }
      i := i + 1;
    }
    return None;
  }

  /** No two elements of the list have the same key. */
  predicate UniqueBy<T, K(==)>(s: seq<T>, key: T -> K)
  {
    forall i, j :: 0 <= i < j < |s| ==> key(s[i]) != key(s[j])
  }

  /** Appending an element whose key no element has keeps the keys unique. */
  lemma AppendKeepsUniqueBy<T, K>(s: seq<T>, x: T, key: T -> K)
    requires UniqueBy(s, key)
    requires forall y :: y in s ==> key(y) != key(x)
    ensures UniqueBy(s + [x], key)
  {
    var r := s + [x];
    forall i, j | 0 <= i < j < |r|
      ensures key(r[i]) != key(r[j])
    {
      if j == |s| {
        assert r[i] in s;
      }
    }
  }

  /** Removing elements keeps the keys unique. */
  lemma {:induction false} FilterKeepsUniqueBy<T, K>(s: seq<T>, keep: T -> bool, key: T -> K)
    requires UniqueBy(s, key)
    ensures UniqueBy(Filter(s, keep), key)
  {
    if |s| > 0 {
      FilterKeepsUniqueBy(s[1..], keep, key);
      var rest := Filter(s[1..], keep);
      if keep(s[0]) {
        forall j | 0 <= j < |rest|
          ensures key(s[0]) != key(rest[j])
        {
          assert rest[j] in s[1..];
          var k :| 0 <= k < |s[1..]| && s[1..][k] == rest[j];
          assert s[k + 1] == rest[j];
        }
        var r := Filter(s, keep);
        assert r == [s[0]] + rest;
        forall i, j | 0 <= i < j < |r|
          ensures key(r[i]) != key(r[j])
        {
          assert r[j] == rest[j - 1];
          if i > 0 {
            assert r[i] == rest[i - 1];
          }
        }
      }
    }
  }
}
