/** The intrusive circular lists of lwt_list.h, on mutable nodes with n and p
    links.  A ring is the sequence of its nodes in n order, the list head first. */
module Rings {
  import opened Queues

  class ListNode {
    var n: ListNode
    var p: ListNode

    /** list_ll_init */
    constructor ()
      ensures IsRing([this])
    {
      n := this;
      p := this;
    }
  }

  /** Following n visits the ring in order and closes it; following p visits it
      backwards, so that n and p are mutually inverse. */
  ghost predicate IsRing(r: seq<ListNode>)
    reads r
  {
    && r != [] && NoDup(r)
    && (forall i {:trigger r[i].n} :: 0 <= i < |r| ==> r[i].n == r[After(i, |r|)])
    && (forall i {:trigger r[i].p} :: 0 <= i < |r| ==> r[i].p == r[Before(i, |r|)])
  }

  /** Neighbours in a ring with x put in at k, in terms of those before. */
  lemma SpliceNeighbours<T>(r: seq<T>, k: nat, x: T, q: seq<T>, j: nat)
    requires k < |r| && q == r[..k] + [x] + r[k..] && j < |q|
    ensures j == k ==> q[j] == x && q[After(j, |q|)] == r[k] && q[Before(j, |q|)] == r[Before(k, |r|)]
    ensures j != k ==>
      var i := if j < k then j else j - 1;
      && q[j] == r[i]
      && q[After(j, |q|)] == (if i == Before(k, |r|) then x else r[After(i, |r|)])
      && q[Before(j, |q|)] == (if i == k then x else r[Before(i, |r|)])
  {
  }

  /** Neighbours in a ring with position k taken out, in terms of those before. */
  lemma CutNeighbours<T>(r: seq<T>, k: nat, q: seq<T>, j: nat)
    requires k < |r| && q == r[..k] + r[k + 1..] && j < |q|
    ensures
      var i := if j < k then j else j + 1;
      && q[j] == r[i]
      && q[After(j, |q|)] == r[After(if i == Before(k, |r|) then k else i, |r|)]
      && q[Before(j, |q|)] == r[Before(if i == After(k, |r|) then k else i, |r|)]
  {
  }

  /** list_ll_add: the new node goes in front of link. */
  method LlAdd(link: ListNode, newLink: ListNode, ghost r: seq<ListNode>, ghost k: nat)
    requires IsRing(r) && k < |r| && r[k] == link && newLink !in r
    modifies link, link.p, newLink
    ensures IsRing(r[..k] + [newLink] + r[k..])
  {
    ghost var b := Before(k, |r|);
    assert link.p == r[b];
    newLink.p := link.p;
    newLink.n := link;
    newLink.p.n := newLink;
    newLink.n.p := newLink;
    assert forall i {:trigger r[i].n} :: 0 <= i < |r| ==> r[i].n == (if i == b then newLink else r[After(i, |r|)]);
    assert forall i {:trigger r[i].p} :: 0 <= i < |r| ==> r[i].p == (if i == k then newLink else r[Before(i, |r|)]);
    SplicedRing(newLink, r, k);
  }

  lemma SplicedRing(x: ListNode, r: seq<ListNode>, k: nat)
    requires r != [] && NoDup(r) && k < |r| && x !in r
    requires x.n == r[k] && x.p == r[Before(k, |r|)]
    requires forall i {:trigger r[i].n} :: 0 <= i < |r| ==>
      r[i].n == (if i == Before(k, |r|) then x else r[After(i, |r|)])
    requires forall i {:trigger r[i].p} :: 0 <= i < |r| ==>
      r[i].p == (if i == k then x else r[Before(i, |r|)])
    ensures IsRing(r[..k] + [x] + r[k..])
  {
    var q := r[..k] + [x] + r[k..];
    forall j | 0 <= j < |q|
      ensures q[j].n == q[After(j, |q|)] && q[j].p == q[Before(j, |q|)]
    {
      SpliceNeighbours(r, k, x, q, j);
    }
    InsertedMembers(r, x, q);
  }

  /** list_ll_rem: the node leaves its ring and becomes a ring of its own. */
  method LlRem(x: ListNode, ghost r: seq<ListNode>, ghost k: nat)
    requires IsRing(r) && k < |r| && r[k] == x
    modifies x, x.n, x.p
    ensures IsRing([x])
    ensures |r| > 1 ==> IsRing(r[..k] + r[k + 1..])
  {
    ghost var a, b := After(k, |r|), Before(k, |r|);
    assert x.n == r[a] && x.p == r[b];
    x.n.p := x.p;
    x.p.n := x.n;
    x.p := x;
    x.n := x;
    assert forall i {:trigger r[i].n} :: 0 <= i < |r| && i != k ==> r[i].n == r[After(if i == b then k else i, |r|)];
    assert forall i {:trigger r[i].p} :: 0 <= i < |r| && i != k ==> r[i].p == r[Before(if i == a then k else i, |r|)];
    if |r| > 1 {
      CutRing(r, k);
    }
  }

  lemma CutRing(r: seq<ListNode>, k: nat)
    requires |r| > 1 && NoDup(r) && k < |r|
    requires forall i {:trigger r[i].n} :: 0 <= i < |r| && i != k ==>
      r[i].n == r[After(if i == Before(k, |r|) then k else i, |r|)]
    requires forall i {:trigger r[i].p} :: 0 <= i < |r| && i != k ==>
      r[i].p == r[Before(if i == After(k, |r|) then k else i, |r|)]
    ensures IsRing(r[..k] + r[k + 1..])
  {
    var q := r[..k] + r[k + 1..];
    forall j | 0 <= j < |q|
      ensures q[j].n == q[After(j, |q|)] && q[j].p == q[Before(j, |q|)]
    {
      CutNeighbours(r, k, q, j);
    }
  }

  /** list_head_add: the object becomes the last of the list. */
  method HeadAdd(lh: ListNode, o: ListNode, ghost q: seq<ListNode>)
    requires IsRing([lh] + q) && o !in [lh] + q
    modifies lh, lh.p, o
    ensures IsRing([lh] + (q + [o]))
  {
    ghost var r := [lh] + q;
    LlAdd(lh, o, r, 0);
    assert r[..0] + [o] + r[0..] == [o] + r;
    Rotate(o, r);
    assert r + [o] == [lh] + (q + [o]);
  }

  /** Which node of a ring is named first does not matter. */
  lemma Rotate(x: ListNode, r: seq<ListNode>)
    requires IsRing([x] + r) && r != []
    ensures IsRing(r + [x])
  {
    var s, t := [x] + r, r + [x];
    forall i | 0 <= i < |t|
      ensures t[i].n == t[After(i, |t|)] && t[i].p == t[Before(i, |t|)]
    {
      assert t[i] == s[After(i, |s|)];
      assert t[After(i, |t|)] == s[After(After(i, |s|), |s|)];
    }
    RotateNoDup(x, r);
  }

  lemma RotateNoDup<T>(x: T, r: seq<T>)
    requires NoDup([x] + r)
    ensures NoDup(r + [x])
  {
    var s, t := [x] + r, r + [x];
    assert forall i :: 0 <= i < |r| ==> t[i] == s[i + 1];
    assert t[|r|] == s[0];
  }

  /** list_head_append: the object goes in front of the last one, or becomes the
      only one. */
  method HeadAppend(lh: ListNode, o: ListNode, ghost q: seq<ListNode>)
    requires IsRing([lh] + q) && o !in [lh] + q
    modifies lh.p, lh.p.p, o
    ensures IsRing([lh] + BeforeLast(q, o))
  {
    ghost var r := [lh] + q;
    ghost var k := |r| - 1;
    assert r[0].p == r[k];
    LlAdd(lh.p, o, r, k);
    if q == [] {
      assert r[..k] + [o] + r[k..] == [o] + [lh];
      Rotate(o, [lh]);
      assert [lh] + BeforeLast(q, o) == [lh] + [o];
    } else {
      assert r[..k] + [o] + r[k..] == [lh] + BeforeLast(q, o);
    }
  }

  /** Removing a node that is in no list changes nothing: resuming a blocked
      receiver relies on it. */
  method ListRemUnlisted(o: ListNode)
    requires IsRing([o])
    modifies o
    ensures IsRing([o])
  {
    assert [o][0] == o;
    LlRem(o, [o], 0);
  }

  // ----- a family of disjoint lists -----

  function Ring(heads: seq<ListNode>, lists: seq<seq<ListNode>>, i: nat): seq<ListNode>
    requires i < |heads| == |lists|
  {
    [heads[i]] + lists[i]
  }

  function Footprint(heads: seq<ListNode>, lists: seq<seq<ListNode>>): (s: set<ListNode>)
    ensures |heads| == |lists| ==> forall i, x :: 0 <= i < |lists| && x in Ring(heads, lists, i) ==> x in s
  {
    if heads == [] || lists == [] then {}
    else
      var rest := Footprint(heads[1..], lists[1..]);
      assert |heads| == |lists| ==>
        forall i :: 0 < i < |lists| ==> Ring(heads, lists, i) == Ring(heads[1..], lists[1..], i - 1);
      (set x | x in [heads[0]] + lists[0]) + rest
  }

  /** No node is in two of the rings. */
  ghost predicate Disjoint(heads: seq<ListNode>, lists: seq<seq<ListNode>>)
    requires |heads| == |lists|
  {
    forall i, j, x: ListNode {:trigger x in Ring(heads, lists, i), x in Ring(heads, lists, j)} ::
      0 <= i < |lists| && 0 <= j < |lists| && x in Ring(heads, lists, i) && x in Ring(heads, lists, j) ==> i == j
  }

  /** Each head with the list behind it is a ring. */
  ghost predicate Family(heads: seq<ListNode>, lists: seq<seq<ListNode>>)
    reads Footprint(heads, lists)
  {
    && |heads| == |lists| && Disjoint(heads, lists)
    && forall i :: 0 <= i < |lists| ==> IsRing(Ring(heads, lists, i))
  }

  ghost predicate Listed(lists: seq<seq<ListNode>>, o: ListNode) {
    exists k :: 0 <= k < |lists| && o in lists[k]
  }

  /** The ring a node is in: that of list k, or its own. */
  lemma Where(heads: seq<ListNode>, lists: seq<seq<ListNode>>, o: ListNode) returns (r: seq<ListNode>, i: nat, k: nat)
    requires Family(heads, lists) && o !in heads && (Listed(lists, o) || IsRing([o]))
    ensures IsRing(r) && i < |r| && r[i] == o && k <= |lists|
    ensures k < |lists| ==> r == Ring(heads, lists, k) && i > 0 && lists[k][i - 1] == o
    ensures k == |lists| ==> r == [o] && !Listed(lists, o)
    ensures forall j, x :: 0 <= j < |lists| && j != k && x in r ==> x !in Ring(heads, lists, j)
  {
    if Listed(lists, o) {
      k :| k < |lists| && o in lists[k];
      r := Ring(heads, lists, k);
      var m :| 0 <= m < |lists[k]| && lists[k][m] == o;
      i := m + 1;
    } else {
      r, i, k := [o], 0, |lists|;
    }
  }

  /** Taking a node out leaves the other lists alone. */
  lemma UnlinkRings(heads: seq<ListNode>, lists: seq<seq<ListNode>>, o: ListNode, j: nat)
    requires j < |heads| == |lists| && Disjoint(heads, lists) && NoDup(lists[j])
    ensures forall x :: x in Ring(heads, Unlink(lists, o), j) ==> x in Ring(heads, lists, j)
    ensures o !in lists[j] ==> Ring(heads, Unlink(lists, o), j) == Ring(heads, lists, j)
    ensures forall m :: 0 <= m < |lists[j]| && lists[j][m] == o ==>
      Ring(heads, Unlink(lists, o), j) == Ring(heads, lists, j)[..m + 1] + Ring(heads, lists, j)[m + 2..]
  {
    WithoutMembers(lists[j], o);
    forall m | 0 <= m < |lists[j]| && lists[j][m] == o
      ensures Ring(heads, Unlink(lists, o), j) == Ring(heads, lists, j)[..m + 1] + Ring(heads, lists, j)[m + 2..]
    {
      WithoutAt(lists[j], m);
    }
  }

  lemma RingNoDup(h: ListNode, q: seq<ListNode>)
    requires NoDup([h] + q)
    ensures NoDup(q) && h !in q
  {
    assert ([h] + q)[0] == h && forall i :: 0 <= i < |q| ==> ([h] + q)[i + 1] == q[i];
  }

  /** list_ll_rem touches no ring but the node's own. */
  method RemApart(ghost rings: seq<seq<ListNode>>, ghost k: nat, o: ListNode, ghost r: seq<ListNode>, ghost i: nat)
    requires IsRing(r) && i < |r| && r[i] == o
    requires forall j :: 0 <= j < |rings| && j != k ==> IsRing(rings[j])
    requires forall j, x :: 0 <= j < |rings| && j != k && x in r ==> x !in rings[j]
    modifies o, o.n, o.p
    ensures IsRing([o]) && (|r| > 1 ==> IsRing(r[..i] + r[i + 1..]))
    ensures forall j :: 0 <= j < |rings| && j != k ==> IsRing(rings[j])
  {
    assert o.n == r[After(i, |r|)] && o.p == r[Before(i, |r|)];
    assert o in r && o.n in r && o.p in r;
    LlRem(o, r, i);
  }

  ghost function AllRings(heads: seq<ListNode>, lists: seq<seq<ListNode>>): (s: seq<seq<ListNode>>)
    requires |heads| == |lists|
    ensures |s| == |lists| && forall j :: 0 <= j < |s| ==> s[j] == Ring(heads, lists, j)
  {
    seq(|lists|, j requires 0 <= j < |lists| => Ring(heads, lists, j))
  }

  /** list_rem_d on a node in whichever list, or on one that is in none. */
  method Remove(ghost heads: seq<ListNode>, ghost lists: seq<seq<ListNode>>, o: ListNode)
    requires Family(heads, lists) && o !in heads && (Listed(lists, o) || IsRing([o]))
    modifies o, o.n, o.p
    ensures Family(heads, Unlink(lists, o)) && IsRing([o]) && !Listed(Unlink(lists, o), o)
  {
    hide IsRing, NoDup, Disjoint, Unlink, Listed;
    ghost var r, i, k := Where(heads, lists, o);
    RingsNoDup(heads, lists);
    RemApart(AllRings(heads, lists), k, o, r, i);
    assert forall j :: 0 <= j < |lists| && j != k ==> IsRing(AllRings(heads, lists)[j]);
    UnlinkFamily(heads, lists, o, r, i, k);
    UnlistedNow(lists, o);
  }

  lemma UnlistedNow(lists: seq<seq<ListNode>>, o: ListNode)
    requires forall j :: 0 <= j < |lists| ==> NoDup(lists[j])
    ensures !Listed(Unlink(lists, o), o)
  {
    forall j | 0 <= j < |lists|
      ensures o !in Unlink(lists, o)[j]
    {
      WithoutMembers(lists[j], o);
    }
  }

  lemma RingsNoDup(heads: seq<ListNode>, lists: seq<seq<ListNode>>)
    requires Family(heads, lists)
    ensures Disjoint(heads, lists) && forall j :: 0 <= j < |lists| ==> NoDup(lists[j])
  {
    forall j | 0 <= j < |lists|
      ensures NoDup(lists[j])
    {
      assert IsRing(Ring(heads, lists, j));
      RingNoDup(heads[j], lists[j]);
    }
  }

  lemma UnlinkFamily(heads: seq<ListNode>, lists: seq<seq<ListNode>>, o: ListNode, r: seq<ListNode>, i: nat, k: nat)
    requires |heads| == |lists| && Disjoint(heads, lists) && (forall j :: 0 <= j < |lists| ==> NoDup(lists[j]))
    requires forall j :: 0 <= j < |lists| && j != k ==> IsRing(Ring(heads, lists, j))
    requires o !in heads && i < |r| && r[i] == o && k <= |lists|
    requires if k < |lists| then r == Ring(heads, lists, k) && i > 0 && lists[k][i - 1] == o else !Listed(lists, o)
    requires |r| > 1 ==> IsRing(r[..i] + r[i + 1..])
    ensures Family(heads, Unlink(lists, o))
  {
    hide IsRing, NoDup, Unlink, After, Before;
    forall j: nat | j < |lists|
      ensures IsRing(Ring(heads, Unlink(lists, o), j))
      ensures forall x :: x in Ring(heads, Unlink(lists, o), j) ==> x in Ring(heads, lists, j)
    {
      UnlinkRings(heads, lists, o, j);
      if j == k {
        assert Ring(heads, lists, k)[i] == lists[k][i - 1];
      } else {
        NotThere(heads, lists, o, j, k);
      }
    }
  }

  lemma NotThere(heads: seq<ListNode>, lists: seq<seq<ListNode>>, o: ListNode, j: nat, k: nat)
    requires |heads| == |lists| && Disjoint(heads, lists) && j < |lists| && j != k
    requires if k < |lists| then o in lists[k] else !Listed(lists, o)
    ensures o !in lists[j]
  {
    assert o in lists[j] ==> o in Ring(heads, lists, j);
    assert k < |lists| ==> o in Ring(heads, lists, k);
  }

  /** A node that was in no list enters list r. */
  lemma PutFamily(heads: seq<ListNode>, lists: seq<seq<ListNode>>, o: ListNode, r: nat, q: seq<ListNode>)
    requires |heads| == |lists| && r < |lists| && Disjoint(heads, lists) && o !in heads && !Listed(lists, o)
    requires forall j :: 0 <= j < |lists| && j != r ==> IsRing(Ring(heads, lists, j))
    requires IsRing([heads[r]] + q) && forall x :: x in q <==> x in lists[r] || x == o
    ensures Family(heads, lists[r := q])
  {
    hide IsRing;
    var lists' := lists[r := q];
    assert Ring(heads, lists', r) == [heads[r]] + q;
    assert forall j :: 0 <= j < |lists| && j != r ==> Ring(heads, lists', j) == Ring(heads, lists, j);
    forall j, x | 0 <= j < |lists| && x in Ring(heads, lists', j)
      ensures x in Ring(heads, lists, j) || (j == r && x == o)
    {
    }
    forall j | 0 <= j < |lists|
      ensures o !in Ring(heads, lists, j)
    {
    }
  }

  /** A node's neighbours are in its ring. */
  lemma NeighboursIn(heads: seq<ListNode>, lists: seq<seq<ListNode>>, o: ListNode)
    requires Family(heads, lists) && o !in heads && (Listed(lists, o) || IsRing([o]))
    ensures o.n in Footprint(heads, lists) + {o} && o.p in Footprint(heads, lists) + {o}
  {
    var r, i, k := Where(heads, lists, o);
    assert o.n == r[After(i, |r|)] && o.p == r[Before(i, |r|)];
    assert o.n in r && o.p in r;
  }

  /** The last two nodes of a list's ring are in it. */
  lemma LastIn(heads: seq<ListNode>, lists: seq<seq<ListNode>>, r: nat)
    requires Family(heads, lists) && r < |lists|
    ensures heads[r] in Footprint(heads, lists) && heads[r].p in Footprint(heads, lists) &&
      heads[r].p.p in Footprint(heads, lists)
  {
    var ring := Ring(heads, lists, r);
    assert ring[0] == heads[r] && IsRing(ring);
    var b := Before(0, |ring|);
    assert heads[r].p == ring[b] && heads[r].p.p == ring[Before(b, |ring|)];
    assert forall i :: 0 <= i < |ring| ==> ring[i] in ring;
  }

  lemma {:induction false} UnlinkFootprint(heads: seq<ListNode>, lists: seq<seq<ListNode>>, o: ListNode)
    requires |heads| == |lists| && forall j :: 0 <= j < |lists| ==> NoDup(lists[j])
    ensures Footprint(heads, Unlink(lists, o)) <= Footprint(heads, lists)
  {
    if lists != [] {
      var u := Unlink(lists, o);
      UnlinkFootprint(heads[1..], lists[1..], o);
      assert u[1..] == Unlink(lists[1..], o);
      WithoutMembers(lists[0], o);
      assert Footprint(heads, u) == (set x | x in [heads[0]] + u[0]) + Footprint(heads[1..], u[1..]);
    }
  }

  /** list_rem_d, list_head_add_d: on real nodes, over any family of disjoint lists,
      what MoveToEnd is on sequences. */
  method MoveNodeToEnd(ghost heads: seq<ListNode>, ghost lists: seq<seq<ListNode>>, o: ListNode, lh: ListNode,
                       ghost r: nat)
    requires Family(heads, lists) && o !in heads && (Listed(lists, o) || IsRing([o]))
    requires r < |lists| && heads[r] == lh
    modifies Footprint(heads, lists), o
    ensures Family(heads, MoveToEnd(lists, o, r))
  {
    hide IsRing, NoDup, Footprint;
    RingsNoDup(heads, lists);
    NeighboursIn(heads, lists, o);
    UnlinkFootprint(heads, lists, o);
    Remove(heads, lists, o);
    ghost var u := Unlink(lists, o);
    LastIn(heads, u, r);
    AddNode(heads, u, o, lh, r);
  }

  /** list_rem_d, list_head_append_d: the same for MoveBeforeLast. */
  method MoveNodeBeforeLast(ghost heads: seq<ListNode>, ghost lists: seq<seq<ListNode>>, o: ListNode, lh: ListNode,
                            ghost r: nat)
    requires Family(heads, lists) && o !in heads && (Listed(lists, o) || IsRing([o]))
    requires r < |lists| && heads[r] == lh
    modifies Footprint(heads, lists), o
    ensures Family(heads, MoveBeforeLast(lists, o, r))
  {
    hide IsRing, NoDup, Footprint;
    RingsNoDup(heads, lists);
    NeighboursIn(heads, lists, o);
    UnlinkFootprint(heads, lists, o);
    Remove(heads, lists, o);
    ghost var u := Unlink(lists, o);
    LastIn(heads, u, r);
    AppendNode(heads, u, o, lh, r);
  }

  method AddNode(ghost heads: seq<ListNode>, ghost lists: seq<seq<ListNode>>, o: ListNode, lh: ListNode, ghost r: nat)
    requires Family(heads, lists) && o !in heads && !Listed(lists, o) && r < |lists| && heads[r] == lh
    modifies lh, lh.p, o
    ensures Family(heads, lists[r := lists[r] + [o]])
  {
    OthersApart(heads, lists, o, r);
    HeadAdd(lh, o, lists[r]);
    PutFamily(heads, lists, o, r, lists[r] + [o]);
  }

  method AppendNode(ghost heads: seq<ListNode>, ghost lists: seq<seq<ListNode>>, o: ListNode, lh: ListNode,
                    ghost r: nat)
    requires Family(heads, lists) && o !in heads && !Listed(lists, o) && r < |lists| && heads[r] == lh
    modifies lh.p, lh.p.p, o
    ensures Family(heads, lists[r := BeforeLast(lists[r], o)])
  {
    OthersApart(heads, lists, o, r);
    HeadAppend(lh, o, lists[r]);
    BeforeLastInserts(lists[r], o);
    InsertedMembers(lists[r], o, BeforeLast(lists[r], o));
    PutFamily(heads, lists, o, r, BeforeLast(lists[r], o));
  }

  /** The nodes an insertion into list r writes to are in no other ring. */
  lemma OthersApart(heads: seq<ListNode>, lists: seq<seq<ListNode>>, o: ListNode, r: nat)
    requires Family(heads, lists) && o !in heads && !Listed(lists, o) && r < |lists|
    ensures IsRing([heads[r]] + lists[r]) && o !in [heads[r]] + lists[r]
    ensures forall j :: 0 <= j < |lists| && j != r ==>
      && IsRing(Ring(heads, lists, j)) && o !in Ring(heads, lists, j) && heads[r] !in Ring(heads, lists, j)
      && heads[r].p !in Ring(heads, lists, j) && heads[r].p.p !in Ring(heads, lists, j)
  {
    var ring := Ring(heads, lists, r);
    assert ring[0] == heads[r] && IsRing(ring);
    var b := Before(0, |ring|);
    assert heads[r].p == ring[b] && heads[r].p.p == ring[Before(b, |ring|)];
    assert heads[r] in ring && heads[r].p in ring && heads[r].p.p in ring;
  }

  /** __get_queue_size: the walk ends and counts the listed objects. */
  method GetQueueSize(lh: ListNode, ghost q: seq<ListNode>) returns (cnt: nat)
    requires IsRing([lh] + q)
    ensures cnt == |q|
  {
    ghost var r := [lh] + q;
    cnt := 0;
    assert r[0] == lh;
    var curr := lh.n;
    while curr != lh
      invariant cnt <= |q| && curr == r[After(cnt, |r|)]
      decreases |q| - cnt
    {
      cnt := cnt + 1;
      curr := curr.n;
    }
  }
}
