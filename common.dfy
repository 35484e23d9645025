/** Sequence and string helpers shared by the step components: the list
    operations behind `Array.prototype.filter`, `includes`, `indexOf`, the
    include-or-append toggle used by several pickers, `String.prototype.indexOf`
    and ASCII case mapping. */
module Common {

  datatype Option<+T> = None | Some(value: T)

  /** The parent callback a form step invokes as the last action of a handler
      (`onNext`, `onBack`, `onCompleted`, ...); `Stay` when it invokes none. */
  datatype Signal = Stay | Next | Back | Completed

  /** Outcome of a `fetch` POST to the lead webhook: a 2xx response, a non-2xx
      response, or a thrown network error carrying its message. */
  datatype Delivery = Delivered | Rejected | NetworkFailure(message: string)

  /** `a` can be obtained from `b` by deleting elements: the elements of `a`
      occur in `b` in the same order (greedy left-to-right matching). */
  predicate IsSubsequence<T(==)>(a: seq<T>, b: seq<T>)
    decreases |b|
  {
    if a == [] then true
    else if b == [] then false
    else if a[0] == b[0] then IsSubsequence(a[1..], b[1..])
    else IsSubsequence(a, b[1..])
  }

  predicate NoDuplicates<T(==)>(xs: seq<T>) {
    forall i, j :: 0 <= i < j < |xs| ==> xs[i] != xs[j]
  }

  /** `xs.filter(f)`: exactly the elements satisfying `f`, each with its
      multiplicity, in their original order. */
  function Filter<T(==,!new)>(xs: seq<T>, f: T -> bool): (r: seq<T>)
    ensures |r| <= |xs|
    ensures forall x :: x in r <==> x in xs && f(x)
    ensures IsSubsequence(r, xs)
  {
    if xs == [] then []
    else
      var rest := Filter(xs[1..], f);
      assert xs == [xs[0]] + xs[1..];
      if f(xs[0]) then
        assert ([xs[0]] + rest)[1..] == rest;
        [xs[0]] + rest
      else
        assert rest != [] ==> rest[0] in rest && rest[0] != xs[0];
        rest
  }

  /** Each kept element keeps its multiplicity. */
  lemma {:induction false} FilterCount<T(!new)>(xs: seq<T>, f: T -> bool, y: T)
    ensures multiset(Filter(xs, f))[y] == if f(y) then multiset(xs)[y] else 0
  {
    if xs != [] {
      FilterCount(xs[1..], f, y);
      assert xs == [xs[0]] + xs[1..];
      assert multiset(xs)[y] == multiset{xs[0]}[y] + multiset(xs[1..])[y];
      if f(xs[0]) {
        var rest := Filter(xs[1..], f);
        assert Filter(xs, f) == [xs[0]] + rest;
        assert multiset([xs[0]] + rest)[y] == multiset{xs[0]}[y] + multiset(rest)[y];
      }
    }
  }

  lemma {:induction false} FilterConcat<T(!new)>(a: seq<T>, b: seq<T>, f: T -> bool)
    ensures Filter(a + b, f) == Filter(a, f) + Filter(b, f)
  {
    if a == [] {
      assert a + b == b;
    } else {
      assert (a + b)[1..] == a[1..] + b;
      FilterConcat(a[1..], b, f);
    }
  }

  /** A filter that every element passes keeps the whole sequence. */
  lemma {:induction false} FilterKeepsAll<T(!new)>(xs: seq<T>, f: T -> bool)
    requires forall x :: x in xs ==> f(x)
    ensures Filter(xs, f) == xs
  {
    if xs != [] {
      assert forall x :: x in xs[1..] ==> x in xs;
      FilterKeepsAll(xs[1..], f);
      assert f(xs[0]);
      assert Filter(xs, f) == [xs[0]] + Filter(xs[1..], f);
      assert [xs[0]] + xs[1..] == xs;
    }
  }

  /** `xs.filter(y => y !== x)`: every occurrence of `x` goes, every other
      element stays with its multiplicity and in order. */
  function RemoveAll<T(==,!new)>(xs: seq<T>, x: T): (r: seq<T>)
    ensures forall y :: y in r <==> y in xs && y != x
    ensures IsSubsequence(r, xs)
    ensures |r| <= |xs| && (x in xs ==> |r| < |xs|)
  {
    if xs == [] then []
    else
      var rest := RemoveAll(xs[1..], x);
      assert xs == [xs[0]] + xs[1..];
      if xs[0] == x then
        assert rest != [] ==> rest[0] in rest && rest[0] != xs[0];
        rest
      else
        assert ([xs[0]] + rest)[1..] == rest;
        [xs[0]] + rest
  }

  /** Every other element keeps its multiplicity; `x` occurs no more. */
  lemma {:induction false} RemoveAllCount<T(!new)>(xs: seq<T>, x: T, y: T)
    ensures multiset(RemoveAll(xs, x))[y] == if y == x then 0 else multiset(xs)[y]
  {
    if xs != [] {
      RemoveAllCount(xs[1..], x, y);
      assert xs == [xs[0]] + xs[1..];
      assert multiset(xs)[y] == multiset{xs[0]}[y] + multiset(xs[1..])[y];
      if xs[0] != x {
        var rest := RemoveAll(xs[1..], x);
        assert RemoveAll(xs, x) == [xs[0]] + rest;
        assert multiset([xs[0]] + rest)[y] == multiset{xs[0]}[y] + multiset(rest)[y];
      }
    }
  }

  lemma {:induction false} RemoveAllConcat<T(!new)>(a: seq<T>, b: seq<T>, x: T)
    ensures RemoveAll(a + b, x) == RemoveAll(a, x) + RemoveAll(b, x)
  {
    if a == [] {
      assert a + b == b;
    } else {
      assert (a + b)[1..] == a[1..] + b;
      RemoveAllConcat(a[1..], b, x);
    }
  }

  /** Removing an absent element changes nothing. */
  lemma {:induction false} RemoveAllAbsent<T(!new)>(xs: seq<T>, x: T)
    requires x !in xs
    ensures RemoveAll(xs, x) == xs
  {
    if xs != [] {
      assert x !in xs[1..];
      RemoveAllAbsent(xs[1..], x);
      assert [xs[0]] + xs[1..] == xs;
    }
  }

  /** `xs.includes(x) ? xs.filter(y => y !== x) : [...xs, x]`. */
  function Toggle<T(==,!new)>(xs: seq<T>, x: T): (r: seq<T>)
    ensures x in r <==> x !in xs
    ensures forall y :: y != x ==> (y in r <==> y in xs)
  {
    if x in xs then RemoveAll(xs, x) else xs + [x]
  }

  /** Toggling an absent element twice gives back the original sequence. */
  lemma ToggleTwice<T(!new)>(xs: seq<T>, x: T)
    requires x !in xs
    ensures Toggle(Toggle(xs, x), x) == xs
  {
    assert Toggle(xs, x) == xs + [x];
    RemoveAllConcat(xs, [x], x);
    RemoveAllAbsent(xs, x);
    assert RemoveAll([x], x) == [];
    assert xs + [] == xs;
  }

  /** Toggling never introduces a duplicate. */
  lemma ToggleKeepsNoDuplicates<T(!new)>(xs: seq<T>, x: T)
    requires NoDuplicates(xs)
    ensures NoDuplicates(Toggle(xs, x))
  {
    if x in xs {
      NoDuplicatesOfSubsequence(RemoveAll(xs, x), xs);
    } else {
      var r := xs + [x];
      forall i, j | 0 <= i < j < |r| ensures r[i] != r[j] {
        if j == |xs| {
          assert r[i] == xs[i];
        }
      }
    }
  }

  lemma {:induction false} NoDuplicatesOfSubsequence<T>(a: seq<T>, b: seq<T>)
    requires IsSubsequence(a, b) && NoDuplicates(b)
    ensures NoDuplicates(a)
    decreases |b|
  {
    if a != [] && b != [] {
      assert NoDuplicates(b[1..]) by {
        forall i, j | 0 <= i < j < |b[1..]| ensures b[1..][i] != b[1..][j] {
          assert b[1..][i] == b[i + 1] && b[1..][j] == b[j + 1];
        }
      }
      if a[0] == b[0] {
        NoDuplicatesOfSubsequence(a[1..], b[1..]);
        SubsequenceMembers(a[1..], b[1..]);
        forall j | 0 < j < |a| ensures a[0] != a[j] {
          assert a[j] == a[1..][j - 1];
          assert a[j] in b[1..];
          var k :| 0 <= k < |b[1..]| && b[1..][k] == a[j];
          assert b[k + 1] == a[j];
        }
        forall i, j | 0 <= i < j < |a| ensures a[i] != a[j] {
          if i > 0 {
            assert a[i] == a[1..][i - 1] && a[j] == a[1..][j - 1];
          }
        }
      } else {
        NoDuplicatesOfSubsequence(a, b[1..]);
      }
    }
  }

  lemma {:induction false} SubsequenceMembers<T>(a: seq<T>, b: seq<T>)
    requires IsSubsequence(a, b)
    ensures forall x :: x in a ==> x in b
    decreases |b|
  {
    if a != [] && b != [] {
      if a[0] == b[0] {
        SubsequenceMembers(a[1..], b[1..]);
        assert forall x :: x in a ==> x == a[0] || x in a[1..];
      } else {
        SubsequenceMembers(a, b[1..]);
      }
    }
  }

  /** A duplicate-free sequence whose elements all occur in `t` is no longer
      than `t`. */
  lemma {:induction false} DistinctSubsetLength<T(!new)>(s: seq<T>, t: seq<T>)
    requires NoDuplicates(s) && forall x :: x in s ==> x in t
    ensures |s| <= |t|
  {
    if s != [] {
      var rest := RemoveAll(t, s[0]);
      assert NoDuplicates(s[1..]) by {
        forall i, j | 0 <= i < j < |s[1..]| ensures s[1..][i] != s[1..][j] {
          assert s[1..][i] == s[i + 1] && s[1..][j] == s[j + 1];
        }
      }
      forall x | x in s[1..] ensures x in rest {
        var k :| 0 <= k < |s[1..]| && s[1..][k] == x;
        assert s[k + 1] == x;
      }
      DistinctSubsetLength(s[1..], rest);
    }
  }

  /** `xs.indexOf(x)`: the position of the first occurrence, or -1. */
  function IndexOf<T(==)>(xs: seq<T>, x: T): (i: int)
    ensures -1 <= i < |xs|
    ensures i == -1 <==> x !in xs
    ensures 0 <= i ==> xs[i] == x && x !in xs[..i]
  {
    if xs == [] then -1
    else if xs[0] == x then 0
    else
      var j := IndexOf(xs[1..], x);
      assert xs == [xs[0]] + xs[1..];
      if j == -1 then -1
      else
        assert xs[..j + 1] == [xs[0]] + xs[1..][..j];
        j + 1
  }

  // ---------------------------------------------------------------------
  // Strings

  /** `p` occurs in `text` starting at index `j`. */
  predicate OccursAt(text: string, p: string, j: int) {
    0 <= j && j + |p| <= |text| && text[j..j + |p|] == p
  }

  /** `text.indexOf(p)`: the first index at which `p` occurs, or -1; an empty
      `p` occurs at 0. */
  function StrIndexOf(text: string, p: string): (r: int)
    ensures -1 <= r
    ensures r >= 0 ==> OccursAt(text, p, r)
    ensures r >= 0 ==> forall j :: 0 <= j < r ==> !OccursAt(text, p, j)
    ensures r == -1 <==> forall j :: !OccursAt(text, p, j)
  {
    IndexFrom(text, p, 0)
  }

  function IndexFrom(text: string, p: string, k: nat): (r: int)
    requires k <= |text|
    ensures r == -1 || (k <= r && OccursAt(text, p, r))
    ensures r >= 0 ==> forall j :: k <= j < r ==> !OccursAt(text, p, j)
    ensures r == -1 <==> forall j :: k <= j ==> !OccursAt(text, p, j)
    decreases |text| - k
  {
    if k + |p| > |text| then -1
    else if text[k..k + |p|] == p then k
    else IndexFrom(text, p, k + 1)
  }

  /** `hay.includes(needle)`. */
  function Includes(hay: string, needle: string): (r: bool)
    ensures r <==> exists j :: OccursAt(hay, needle, j)
  {
    StrIndexOf(hay, needle) != -1
  }

  /** ASCII case mapping: letters outside A-Z / a-z are left as they are. */
  function LowerChar(c: char): char {
    if 'A' <= c <= 'Z' then (c as int + 32) as char else c
  }

  function UpperChar(c: char): char {
    if 'a' <= c <= 'z' then (c as int - 32) as char else c
  }

  /** `s.toLowerCase()`, on ASCII letters. */
  function Lower(s: string): (r: string)
    ensures |r| == |s|
    ensures forall i :: 0 <= i < |s| ==> r[i] == LowerChar(s[i])
  {
    seq(|s|, i requires 0 <= i < |s| => LowerChar(s[i]))
  }
}
