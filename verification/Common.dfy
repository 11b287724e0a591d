/** Types and ordering facts shared by every part of the model. */
module Common {

  datatype Option<+T> = None | Some(value: T)

  datatype Result<+T> = Ok(value: T) | Err(error: string)

  /** An instant, in nanoseconds; Encoding relates instants to the stored strings. */
  type Time = int

  type SubId = string

  datatype SubStatus = Active | Paused | Disabled

  datatype Mode = Push | Pull

  /** A subscriptions row. */
  datatype Subscription = Subscription(
    id: SubId, stream: string, typeFilters: seq<string>, providerFilters: seq<string>, subjectPattern: string,
    mode: Mode, endpoint: string, status: SubStatus, cursor: int)

  function Min(a: nat, b: nat): nat { if a < b then a else b }

  function Max(a: int, b: int): int { if a < b then b else a }

  /** SQLite's BINARY collation and Go's string order: character by character, prefix first. */
  predicate StringLess(a: string, b: string) {
    b != [] && (a == [] || a[0] < b[0] || (a[0] == b[0] && StringLess(a[1..], b[1..])))
  }

  lemma StringLessIrreflexive(a: string)
    ensures !StringLess(a, a)
  {
  }

  /** Strictly increasing, which is what ORDER BY on a unique column returns. */
  predicate Ascending(s: seq<nat>) {
    forall i, j :: 0 <= i < j < |s| ==> s[i] < s[j]
  }

  function Elements(s: seq<nat>): (r: set<nat>)
    ensures forall x :: x in r <==> x in s
  {
    set x | x in s
  }

  predicate IsLeast(m: nat, s: set<nat>) {
    m in s && forall x :: x in s ==> m <= x
  }

  lemma LeastExists(s: set<nat>)
    requires s != {}
    ensures exists m :: IsLeast(m, s)
    decreases |s|
  {
    var y :| y in s;
    var rest := s - {y};
    if rest == {} {
      assert s == {y};
      assert IsLeast(y, s);
    } else {
      LeastExists(rest);
      var m :| IsLeast(m, rest);
      assert s == rest + {y};
      assert IsLeast(if y < m then y else m, s);
    }
  }

  function Least(s: set<nat>): (m: nat)
    requires s != {}
    ensures IsLeast(m, s)
  {
    LeastExists(s);
    var m :| m in s && IsLeast(m, s);
    m
  }

  /** The elements of a set in increasing order: ORDER BY over a unique integer column. */
  function Sorted(s: set<nat>): (r: seq<nat>)
    ensures Ascending(r)
    ensures forall x :: x in r <==> x in s
    ensures |r| == |s|
    decreases |s|
  {
    if s == {} then [] else
      var m := Least(s);
      [m] + Sorted(s - {m})
  }

  lemma AscendingCard(a: seq<nat>)
    requires Ascending(a)
    ensures |Elements(a)| == |a|
  {
    if a != [] {
      var last := a[|a| - 1];
      var front := a[..|a| - 1];
      AscendingCard(front);
      assert a == front + [last];
      assert Elements(a) == Elements(front) + {last};
    }
  }

  lemma FrontElements(a: seq<nat>)
    requires Ascending(a) && a != []
    ensures Elements(a[..|a| - 1]) == Elements(a) - {a[|a| - 1]}
    ensures forall x :: x in Elements(a) ==> x <= a[|a| - 1]
  {
  }

  lemma SameLast(a: seq<nat>, b: seq<nat>)
    requires Ascending(a) && Ascending(b) && a != [] && b != [] && Elements(a) == Elements(b)
    ensures a[|a| - 1] == b[|b| - 1]
  {
    FrontElements(a);
    FrontElements(b);
    assert a[|a| - 1] in Elements(a) && b[|b| - 1] in Elements(b);
  }

  /** An increasing sequence is determined by its elements. */
  lemma {:induction false} AscendingSame(a: seq<nat>, b: seq<nat>)
    requires Ascending(a) && Ascending(b) && Elements(a) == Elements(b)
    ensures a == b
    decreases |a|
  {
    assert a != [] ==> a[0] in Elements(b);
    assert b != [] ==> b[0] in Elements(a);
    if a != [] {
      var m, n := |a| - 1, |b| - 1;
      SameLast(a, b);
      FrontElements(a);
      FrontElements(b);
      assert Ascending(a[..m]) && Ascending(b[..n]);
      hide Ascending, Elements;
      AscendingSame(a[..m], b[..n]);
      assert a == a[..m] + [a[m]] && b == b[..n] + [b[n]];
    }
  }

  /** Two increasing sequences of equal length, one drawn from the other, are equal. */
  lemma AscendingEqual(a: seq<nat>, b: seq<nat>)
    requires Ascending(a) && Ascending(b) && |a| == |b|
    requires forall x :: x in a ==> x in b
    ensures a == b
  {
    AscendingCard(a);
    AscendingCard(b);
    SubsetCard(Elements(a), Elements(b));
    AscendingSame(a, b);
  }

  lemma SubsetCard<T>(a: set<T>, b: set<T>)
    requires a <= b
    ensures |a| <= |b|
    ensures |a| == |b| ==> a == b
  {
    assert b == a + (b - a);
  }

  lemma UnionCard<T>(a: set<T>, b: set<T>)
    ensures |a + b| <= |a| + |b|
  {
  }
}
