/** Sequences standing for the intrusive lists of lwt_list.h: the order of the
    nodes behind a list head, first to last. */
module Queues {

  /** The neighbours of position i on a circle of len positions. */
  function After(i: nat, len: nat): nat { if i + 1 >= len then 0 else i + 1 }

  function Before(i: nat, len: nat): int { if i == 0 then len - 1 else i - 1 }

  ghost predicate NoDup<T>(q: seq<T>) {
    forall i, j :: 0 <= i < j < |q| ==> q[i] != q[j]
  }

  /** Unlinking a node (list_rem). */
  function Without<T(==)>(q: seq<T>, x: T): (r: seq<T>)
    ensures x !in q ==> r == q
    ensures |r| == if x in q then |q| - 1 else |q|
  {
    if q == [] then []
    else if q[0] == x then q[1..]
    else [q[0]] + Without(q[1..], x)
  }

  /** Inserting before the last element, or as the only one: list_head_append
      links the node before the node that is last at the time. */
  function BeforeLast<T>(q: seq<T>, x: T): (r: seq<T>)
    ensures |r| == |q| + 1
  {
    if q == [] then [x] else q[..|q| - 1] + [x, q[|q| - 1]]
  }

  /** r is q with x inserted somewhere. */
  ghost predicate Inserted<T>(q: seq<T>, x: T, r: seq<T>) {
    exists k :: 0 <= k <= |q| && r == q[..k] + [x] + q[k..]
  }

  lemma BeforeLastInserts<T>(q: seq<T>, x: T)
    ensures Inserted(q, x, BeforeLast(q, x))
  {
    var k := if q == [] then 0 else |q| - 1;
    assert BeforeLast(q, x) == q[..k] + [x] + q[k..];
  }

  lemma LastInserts<T>(q: seq<T>, x: T)
    ensures Inserted(q, x, q + [x])
  {
    assert q + [x] == q[..|q|] + [x] + q[|q|..];
  }

  /** Insertion adds exactly one member and keeps nodes distinct. */
  lemma InsertedMembers<T>(q: seq<T>, x: T, r: seq<T>)
    requires Inserted(q, x, r)
    ensures forall y :: y in r <==> y in q || y == x
    ensures NoDup(q) && x !in q ==> NoDup(r)
  {
    var k :| 0 <= k <= |q| && r == q[..k] + [x] + q[k..];
    InsertedAt(q, x, r, k);
  }

  lemma InsertedAt<T>(q: seq<T>, x: T, r: seq<T>, k: nat)
    requires k <= |q| && r == q[..k] + [x] + q[k..]
    ensures forall y :: y in r <==> y in q || y == x
    ensures NoDup(q) && x !in q ==> NoDup(r)
  {
    assert forall j :: 0 <= j < |r| ==> r[j] == if j < k then q[j] else if j == k then x else q[j - 1];
    forall y | y in q
      ensures y in r
    {
      var i :| 0 <= i < |q| && q[i] == y;
      assert r[if i < k then i else i + 1] == y;
    }
    assert x == r[k];
  }

  /** Unlinking takes out exactly one member and keeps nodes distinct. */
  lemma {:induction false} WithoutMembers<T>(q: seq<T>, x: T)
    requires NoDup(q)
    ensures NoDup(Without(q, x))
    ensures forall y :: y in Without(q, x) <==> y in q && y != x
  {
    if q != [] {
      assert q == [q[0]] + q[1..];
      assert forall i, j :: 0 <= i < j < |q[1..]| ==> q[1..][i] == q[i + 1] && q[1..][j] == q[j + 1];
      if q[0] != x {
        WithoutMembers(q[1..], x);
        assert q[0] !in Without(q[1..], x);
      }
    }
  }

  /** Unlinking the node at position k. */
  lemma {:induction false} WithoutAt<T>(q: seq<T>, k: nat)
    requires NoDup(q) && k < |q|
    ensures Without(q, q[k]) == q[..k] + q[k + 1..]
  {
    if k > 0 {
      WithoutAt(q[1..], k - 1);
      assert q[1..][k - 1] == q[k];
      assert q[..k] + q[k + 1..] == [q[0]] + (q[1..][..k - 1] + q[1..][k..]);
    }
  }

  lemma FirstApart<T>(a: seq<T>, b: seq<T>)
    requires a != []
    ensures (a + b)[0] == a[0] && (a + b)[1..] == a[1..] + b && [a[0]] + (a[1..] + b) == a + b
  {
  }

  lemma {:induction false} WithoutInserted<T>(a: seq<T>, x: T, b: seq<T>)
    requires x !in a && b != [] && b[0] == x
    ensures Without(a + b, x) == a + b[1..]
  {
    if a == [] {
      assert a + b == b && a + b[1..] == b[1..];
    } else {
      WithoutInserted(a[1..], x, b);
      FirstApart(a, b);
      FirstApart(a, b[1..]);
    }
  }

  /** A node put before the last one can be taken out again. */
  lemma PutBack<T>(q: seq<T>, x: T)
    requires x !in q
    ensures
      var r := BeforeLast(q, x);
      && Without(r, x) == q && r[if q == [] then 0 else |q| - 1] == x
      && (q != [] ==> r[|q|] == q[|q| - 1])
  {
    var k := if q == [] then 0 else |q| - 1;
    var rest := [x] + q[k..];
    WithoutInserted(q[..k], x, rest);
    assert rest[1..] == q[k..] && BeforeLast(q, x) == q[..k] + rest && q == q[..k] + q[k..];
  }

  /** A node taken out can be put back where it was. */
  lemma WithoutInserts<T>(q: seq<T>, x: T)
    requires NoDup(q) && x in q
    ensures Inserted(Without(q, x), x, q) && x !in Without(q, x)
  {
    var k :| 0 <= k < |q| && q[k] == x;
    WithoutAt(q, k);
    TakenAt(q, k);
    WithoutMembers(q, x);
  }

  lemma TakenAt<T>(q: seq<T>, k: nat)
    requires k < |q|
    ensures Inserted(q[..k] + q[k + 1..], q[k], q)
  {
    var r := q[..k] + q[k + 1..];
    assert r[..k] == q[..k] && r[k..] == q[k + 1..];
    assert q == q[..k] + [q[k]] + q[k + 1..];
  }

  // ----- a node in a family of lists -----

  /** list_rem: the one node leaves whichever list it is in. */
  function Unlink<T(==)>(lists: seq<seq<T>>, x: T): (r: seq<seq<T>>)
    ensures |r| == |lists|
    ensures forall i :: 0 <= i < |r| ==> r[i] == Without(lists[i], x)
  {
    seq(|lists|, i requires 0 <= i < |lists| => Without(lists[i], x))
  }

  /** list_rem, list_head_add */
  function MoveToEnd<T(==)>(lists: seq<seq<T>>, x: T, r: nat): seq<seq<T>>
    requires r < |lists|
  {
    var u := Unlink(lists, x);
    u[r := u[r] + [x]]
  }

  /** list_rem, list_head_append */
  function MoveBeforeLast<T(==)>(lists: seq<seq<T>>, x: T, r: nat): seq<seq<T>>
    requires r < |lists|
  {
    var u := Unlink(lists, x);
    u[r := BeforeLast(u[r], x)]
  }
}
