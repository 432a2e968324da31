/** The value of the allocator's free list: its blocks in address order.
    Addresses and sizes count Header units (8 bytes). */
module FreeList {

  datatype Block = Block(addr: nat, size: nat) {
    function End(): nat { addr + size }
    predicate Has(u: int) { addr <= u < addr + size }
  }

  ghost predicate Covers(s: seq<Block>, u: int) {
    exists i :: 0 <= i < |s| && s[i].Has(u)
  }

  /** Increasing addresses, and no block touches the next one. */
  ghost predicate Apart(s: seq<Block>) {
    forall i, j :: 0 <= i < j < |s| ==> s[i].End() < s[j].addr
  }

  /** Coalesced form; the degenerate block at base is the only one of size 0. */
  ghost predicate Canon(s: seq<Block>, base: nat) {
    && Apart(s)
    && forall i :: 0 <= i < |s| ==> (s[i].size == 0 <==> s[i].addr == base)
  }

  /** A free list: coalesced, with the base node in it. */
  ghost predicate IsFreeList(s: seq<Block>, base: nat) {
    Canon(s, base) && Block(base, 0) in s
  }

  // ----- the canonical form is determined by the set of free units -----

  lemma TailCovers(s: seq<Block>, u: int)
    requires s != [] && Apart(s)
    ensures Covers(s[1..], u) <==> Covers(s, u) && !s[0].Has(u)
  {
    if Covers(s[1..], u) {
      var i :| 0 <= i < |s[1..]| && s[1..][i].Has(u);
      assert s[i + 1].Has(u);
    }
    if Covers(s, u) && !s[0].Has(u) {
      var i :| 0 <= i < |s| && s[i].Has(u);
      assert s[1..][i - 1].Has(u);
    }
  }

  ghost predicate SameUnits(s: seq<Block>, t: seq<Block>) {
    forall u :: Covers(s, u) <==> Covers(t, u)
  }

  /** If t has anything, s cannot start above it. */
  lemma StartsNoLater(s: seq<Block>, t: seq<Block>, base: nat)
    requires Canon(s, base) && Canon(t, base) && t != []
    requires SameUnits(s, t) && (Block(base, 0) in t ==> Block(base, 0) in s)
    ensures s != [] && s[0].addr <= t[0].addr
  {
    if t[0].size == 0 {
      assert t[0] == Block(base, 0);
    } else {
      assert t[0].Has(t[0].addr);
      assert Covers(s, t[0].addr);
    }
  }

  /** Heads that start together end together. */
  lemma EndsNoEarlier(s: seq<Block>, t: seq<Block>, base: nat)
    requires Canon(s, base) && Canon(t, base) && s != [] && t != []
    requires SameUnits(s, t) && s[0].addr == t[0].addr
    ensures s[0].size >= t[0].size
  {
    if s[0].size < t[0].size {
      var u := s[0].End();
      assert t[0].Has(u) && Covers(t, u);
    }
  }

  lemma TailCanon(s: seq<Block>, base: nat)
    requires Canon(s, base) && s != []
    ensures Apart(s) && Canon(s[1..], base) && (s[0].size == 0 <==> s[0].addr == base)
    ensures Block(base, 0) in s[1..] <==> Block(base, 0) in s && s[0] != Block(base, 0)
  {
    assert s == [s[0]] + s[1..];
  }

  lemma {:induction false} Unique(s: seq<Block>, t: seq<Block>, base: nat)
    requires Canon(s, base) && Canon(t, base)
    requires Block(base, 0) in s <==> Block(base, 0) in t
    requires SameUnits(s, t)
    ensures s == t
  {
    hide Covers, Canon, Apart;
    if s == [] {
      if t != [] { StartsNoLater(s, t, base); }
    } else {
      StartsNoLater(t, s, base);
      StartsNoLater(s, t, base);
      EndsNoEarlier(s, t, base);
      EndsNoEarlier(t, s, base);
      TailCanon(s, base);
      TailCanon(t, base);
      forall u
        ensures Covers(s[1..], u) <==> Covers(t[1..], u)
      {
        TailCovers(s, u);
        TailCovers(t, u);
      }
      assert s == [s[0]] + s[1..] && t == [t[0]] + t[1..];
      Unique(s[1..], t[1..], base);
    }
  }

  // ----- what freeing and allocating mean -----

  /** t is the free list s after the block b has been given back. */
  ghost predicate Freed(s: seq<Block>, b: Block, t: seq<Block>, base: nat) {
    && IsFreeList(t, base)
    && forall u :: Covers(t, u) <==> Covers(s, u) || b.Has(u)
  }

  /** t is the free list s after the block b has been cut out of it. */
  ghost predicate Taken(s: seq<Block>, b: Block, t: seq<Block>, base: nat) {
    && IsFreeList(t, base)
    && (forall u :: b.Has(u) ==> Covers(s, u))
    && forall u :: Covers(t, u) <==> Covers(s, u) && !b.Has(u)
  }

  /** Freeing what was just allocated restores the free list. */
  lemma RoundTrip(s: seq<Block>, b: Block, t: seq<Block>, r: seq<Block>, base: nat)
    requires IsFreeList(s, base) && Taken(s, b, t, base) && Freed(t, b, r, base)
    ensures r == s
  {
    Unique(r, s, base);
  }

  /** A run of frees: the list before and after each of them. */
  ghost predicate FreeRun(lists: seq<seq<Block>>, order: seq<Block>, base: nat) {
    && |lists| == |order| + 1
    && forall i :: 0 <= i < |order| ==> Freed(lists[i], order[i], lists[i + 1], base)
  }

  lemma {:induction false} FreeRunCovers(lists: seq<seq<Block>>, order: seq<Block>, base: nat, u: int)
    requires FreeRun(lists, order, base)
    ensures Covers(lists[|order|], u) <==> Covers(lists[0], u) || exists b :: b in order && b.Has(u)
  {
    var n := |order|;
    if n > 0 {
      var shorter := order[..n - 1];
      assert order == shorter + [order[n - 1]];
      FreeRunCovers(lists[..n], shorter, base, u);
      assert lists[..n][n - 1] == lists[n - 1];
      assert Freed(lists[n - 1], order[n - 1], lists[n - 1 + 1], base);
    }
  }

  /** Giving back the same blocks in any order leaves the same free list. */
  lemma OrderIndependent(lists1: seq<seq<Block>>, order1: seq<Block>,
                         lists2: seq<seq<Block>>, order2: seq<Block>, base: nat)
    requires FreeRun(lists1, order1, base) && FreeRun(lists2, order2, base)
    requires lists1[0] == lists2[0] && multiset(order1) == multiset(order2)
    ensures lists1[|order1|] == lists2[|order2|]
  {
    var t1, t2 := lists1[|order1|], lists2[|order2|];
    forall b
      ensures b in order1 <==> b in order2
    {
      assert b in multiset(order1) <==> b in multiset(order2);
    }
    forall u
      ensures Covers(t1, u) <==> Covers(t2, u)
    {
      FreeRunCovers(lists1, order1, base, u);
      FreeRunCovers(lists2, order2, base, u);
    }
    if order1 != [] {
      assert |order1| == |multiset(order1)| == |order2|;
      var n := |order1| - 1;
      assert Freed(lists1[n], order1[n], lists1[n + 1], base);
      assert Freed(lists2[n], order2[n], lists2[n + 1], base);
      Unique(t1, t2, base);
    } else {
      assert |order2| == |multiset(order2)| == 0;
    }
  }

  // ----- the two edits as sequence operations -----

  /** Position of the gap an address falls in. */
  ghost predicate IsGap(s: seq<Block>, a: nat, k: nat) {
    && k <= |s|
    && (forall i :: 0 <= i < k ==> s[i].addr < a)
    && (forall i :: k <= i < |s| ==> a < s[i].addr)
  }

  lemma {:induction false} GapExists(s: seq<Block>, a: nat) returns (k: nat)
    requires Apart(s) && forall i :: 0 <= i < |s| ==> s[i].addr != a
    ensures IsGap(s, a, k)
  {
    k := 0;
    while k < |s| && s[k].addr < a
      invariant k <= |s| && forall i :: 0 <= i < k ==> s[i].addr < a
    {
      k := k + 1;
    }
  }

  /** b can be given back: it is no part of the list, nor does it reach base. */
  ghost predicate Returnable(s: seq<Block>, b: Block, base: nat) {
    && b.size > 0
    && (forall u :: b.Has(u) ==> !Covers(s, u))
    && !b.Has(base) && b.End() != base
  }

  predicate JoinsRight(s: seq<Block>, b: Block, k: nat) { k < |s| && b.End() == s[k].addr }

  predicate JoinsLeft(s: seq<Block>, b: Block, k: nat) { 0 < k <= |s| && s[k - 1].End() == b.addr }

  /** b put in the gap k and joined with the block that follows, if it touches. */
  function PutIn(s: seq<Block>, b: Block, k: nat): seq<Block>
    requires k <= |s|
  {
    if JoinsRight(s, b, k) then s[k := Block(b.addr, b.size + s[k].size)]
    else s[..k] + [b] + s[k..]
  }

  /** Block k joined with the one before it. */
  function FoldLeft(s: seq<Block>, k: nat): seq<Block>
    requires 0 < k < |s|
  {
    s[..k - 1] + [Block(s[k - 1].addr, s[k - 1].size + s[k].size)] + s[k + 1..]
  }

  function Coalesce(s: seq<Block>, b: Block, k: nat): seq<Block>
    requires k <= |s|
  {
    if JoinsLeft(s, b, k) then FoldLeft(PutIn(s, b, k), k) else PutIn(s, b, k)
  }

  /** Neighbours of a returnable block are where the gap says. */
  lemma GapRoom(s: seq<Block>, b: Block, k: nat, base: nat)
    requires IsFreeList(s, base) && Returnable(s, b, base) && IsGap(s, b.addr, k)
    ensures 0 < k ==> s[k - 1].End() <= b.addr
    ensures k < |s| ==> b.End() <= s[k].addr
  {
    assert b.Has(b.addr);
    if 0 < k {
      assert s[k - 1].Has(b.addr) ==> Covers(s, b.addr);
    }
    if k < |s| {
      assert s[k].size > 0 ==> s[k].Has(s[k].addr) && Covers(s, s[k].addr);
      assert b.Has(s[k].addr) <==> b.End() > s[k].addr;
    }
  }

  /** Replacing the blocks [lo, hi) by one that fills the same room between its
      neighbours. */
  function Splice(s: seq<Block>, lo: nat, m: Block, hi: nat): seq<Block>
    requires lo <= hi <= |s|
  {
    s[..lo] + [m] + s[hi..]
  }

  lemma SpliceCanon(s: seq<Block>, lo: nat, m: Block, hi: nat, base: nat)
    requires Canon(s, base) && lo <= hi <= |s|
    requires 0 < lo ==> s[lo - 1].End() < m.addr
    requires hi < |s| ==> m.End() < s[hi].addr
    requires m.size == 0 <==> m.addr == base
    ensures Canon(Splice(s, lo, m, hi), base)
  {
    var t := Splice(s, lo, m, hi);
    forall i | 0 <= i < |t|
      ensures t[i] == if i < lo then s[i] else if i == lo then m else s[i - lo - 1 + hi]
    {
    }
    forall i, j | 0 <= i < j < |t|
      ensures t[i].End() < t[j].addr
    {
      if j == lo {
        assert i == lo - 1 || s[i].End() < s[lo - 1].addr;
      } else if i == lo {
        assert j == lo + 1 || s[hi].End() < s[j - lo - 1 + hi].addr;
      }
    }
  }

  lemma CoversConcat(s: seq<Block>, t: seq<Block>, u: int)
    ensures Covers(s + t, u) <==> Covers(s, u) || Covers(t, u)
  {
    if Covers(s, u) {
      var i :| 0 <= i < |s| && s[i].Has(u);
      assert (s + t)[i].Has(u);
    }
    if Covers(t, u) {
      var i :| 0 <= i < |t| && t[i].Has(u);
      assert (s + t)[|s| + i].Has(u);
    }
  }

  lemma CoversSplit(s: seq<Block>, lo: nat, hi: nat, u: int)
    requires lo <= hi <= |s|
    ensures Covers(s, u) <==> Covers(s[..lo], u) || Covers(s[lo..hi], u) || Covers(s[hi..], u)
  {
    assert s == s[..lo] + s[lo..hi] + s[hi..];
    CoversConcat(s[..lo] + s[lo..hi], s[hi..], u);
    CoversConcat(s[..lo], s[lo..hi], u);
  }

  lemma CoversSplice(s: seq<Block>, lo: nat, m: Block, hi: nat, u: int)
    requires lo <= hi <= |s|
    ensures Covers(Splice(s, lo, m, hi), u) <==> Covers(s[..lo], u) || m.Has(u) || Covers(s[hi..], u)
  {
    CoversConcat(s[..lo] + [m], s[hi..], u);
    CoversConcat(s[..lo], [m], u);
    assert [m][0] == m;
  }

  /** What a returned block becomes together with the neighbours it touches. */
  function Joined(s: seq<Block>, b: Block, k: nat): Block
    requires k <= |s|
  {
    var left, right := JoinsLeft(s, b, k), JoinsRight(s, b, k);
    Block(if left then s[k - 1].addr else b.addr,
          (if left then s[k - 1].size else 0) + b.size + (if right then s[k].size else 0))
  }

  function JoinLo(s: seq<Block>, b: Block, k: nat): nat { if JoinsLeft(s, b, k) then k - 1 else k }

  function JoinHi(s: seq<Block>, b: Block, k: nat): nat { if JoinsRight(s, b, k) then k + 1 else k }

  lemma CoalesceSplices(s: seq<Block>, b: Block, k: nat)
    requires k <= |s|
    ensures Coalesce(s, b, k) == Splice(s, JoinLo(s, b, k), Joined(s, b, k), JoinHi(s, b, k))
  {
  }

  lemma JoinedRoom(s: seq<Block>, b: Block, k: nat, base: nat)
    requires IsFreeList(s, base) && Returnable(s, b, base) && IsGap(s, b.addr, k)
    ensures
      var lo, m, hi := JoinLo(s, b, k), Joined(s, b, k), JoinHi(s, b, k);
      && m.size > 0 && m.addr != base
      && (0 < lo ==> s[lo - 1].End() < m.addr)
      && (hi < |s| ==> m.End() < s[hi].addr)
      && (forall i :: lo <= i < hi ==> s[i] != Block(base, 0))
  {
    GapRoom(s, b, k, base);
    assert b.Has(b.addr);
  }

  lemma JoinedUnits(s: seq<Block>, b: Block, k: nat, u: int)
    requires k <= |s|
    requires 0 < k ==> s[k - 1].End() <= b.addr
    requires k < |s| ==> b.End() <= s[k].addr
    ensures Joined(s, b, k).Has(u) <==> b.Has(u) || Covers(s[JoinLo(s, b, k)..JoinHi(s, b, k)], u)
  {
    MiddleUnits(s, b, k, JoinLo(s, b, k), JoinHi(s, b, k), u);
  }

  lemma CoalesceUnits(s: seq<Block>, b: Block, k: nat, base: nat, u: int)
    requires IsFreeList(s, base) && Returnable(s, b, base) && IsGap(s, b.addr, k)
    ensures Covers(Coalesce(s, b, k), u) <==> Covers(s, u) || b.Has(u)
  {
    var lo, m, hi := JoinLo(s, b, k), Joined(s, b, k), JoinHi(s, b, k);
    CoalesceSplices(s, b, k);
    GapRoom(s, b, k, base);
    JoinedUnits(s, b, k, u);
    CoversSplit(s, lo, hi, u);
    CoversSplice(s, lo, m, hi, u);
  }

  lemma CoalesceFrees(s: seq<Block>, b: Block, k: nat, base: nat)
    requires IsFreeList(s, base) && Returnable(s, b, base) && IsGap(s, b.addr, k)
    ensures Freed(s, b, Coalesce(s, b, k), base)
  {
    var lo, m, hi := JoinLo(s, b, k), Joined(s, b, k), JoinHi(s, b, k);
    CoalesceSplices(s, b, k);
    JoinedRoom(s, b, k, base);
    SpliceCanon(s, lo, m, hi, base);
    BaseStays(s, lo, m, hi, base);
    forall u
      ensures Covers(Coalesce(s, b, k), u) <==> Covers(s, u) || b.Has(u)
    {
      CoalesceUnits(s, b, k, base, u);
    }
  }

  /** The joined neighbours are all that lies between lo and hi. */
  lemma MiddleUnits(s: seq<Block>, b: Block, k: nat, lo: nat, hi: nat, u: int)
    requires k <= |s|
    requires lo == if JoinsLeft(s, b, k) then k - 1 else k
    requires hi == if JoinsRight(s, b, k) then k + 1 else k
    ensures Covers(s[lo..hi], u) <==>
      (JoinsLeft(s, b, k) && s[k - 1].Has(u)) || (JoinsRight(s, b, k) && s[k].Has(u))
  {
    var mid := s[lo..hi];
    assert JoinsLeft(s, b, k) ==> mid[0] == s[k - 1];
    assert JoinsRight(s, b, k) ==> mid[|mid| - 1] == s[k];
    assert |mid| <= 2;
  }

  lemma BaseStays(s: seq<Block>, lo: nat, m: Block, hi: nat, base: nat)
    requires Block(base, 0) in s && lo <= hi <= |s|
    requires forall i :: lo <= i < hi ==> s[i] != Block(base, 0)
    ensures Block(base, 0) in Splice(s, lo, m, hi)
  {
    var t := Splice(s, lo, m, hi);
    var i :| 0 <= i < |s| && s[i] == Block(base, 0);
    assert t[if i < lo then i else i - hi + lo + 1] == Block(base, 0);
  }

  /** The n units at the end of block b. */
  function Tail(b: Block, n: nat): Block
    requires n <= b.size
  {
    Block(b.addr + b.size - n, n)
  }

  /** The list after cutting n units off the end of block j, or the whole of it. */
  function CutOff(s: seq<Block>, j: nat, n: nat): seq<Block>
    requires j < |s| && n <= s[j].size
  {
    if s[j].size == n then s[..j] + s[j + 1..]
    else s[j := Block(s[j].addr, s[j].size - n)]
  }

  lemma CutOffUnits(s: seq<Block>, j: nat, n: nat, base: nat, u: int)
    requires IsFreeList(s, base) && j < |s| && 0 < n <= s[j].size
    ensures Covers(CutOff(s, j, n), u) <==> Covers(s, u) && !Tail(s[j], n).Has(u)
    ensures Tail(s[j], n).Has(u) ==> Covers(s, u)
  {
    CoversSplit(s, j, j + 1, u);
    assert s[j..j + 1][0] == s[j];
    if s[j].Has(u) { OnlyCovers(s, j, u); }
    if s[j].size == n {
      CoversConcat(s[..j], s[j + 1..], u);
    } else {
      var m := Block(s[j].addr, s[j].size - n);
      assert CutOff(s, j, n) == Splice(s, j, m, j + 1);
      CoversSplice(s, j, m, j + 1, u);
    }
  }

  lemma CutOffCanon(s: seq<Block>, j: nat, n: nat, base: nat)
    requires IsFreeList(s, base) && j < |s| && 0 < n <= s[j].size
    ensures IsFreeList(CutOff(s, j, n), base)
  {
    var t := CutOff(s, j, n);
    var i :| 0 <= i < |s| && s[i] == Block(base, 0);
    if s[j].size == n {
      assert t[if i < j then i else i - 1] == Block(base, 0);
    } else {
      assert t[i] == Block(base, 0);
    }
  }

  lemma CutOffTakes(s: seq<Block>, j: nat, n: nat, base: nat)
    requires IsFreeList(s, base) && j < |s| && 0 < n <= s[j].size
    ensures Taken(s, Tail(s[j], n), CutOff(s, j, n), base)
  {
    CutOffCanon(s, j, n, base);
    forall u
      ensures Covers(CutOff(s, j, n), u) <==> Covers(s, u) && !Tail(s[j], n).Has(u)
      ensures Tail(s[j], n).Has(u) ==> Covers(s, u)
    {
      CutOffUnits(s, j, n, base, u);
    }
  }

  /** No other block shares units with block j. */
  lemma OnlyCovers(s: seq<Block>, j: nat, u: int)
    requires Apart(s) && j < |s| && s[j].Has(u)
    ensures !Covers(s[..j], u) && !Covers(s[j + 1..], u)
  {
  }

  // ----- counting -----

  function Total(s: seq<Block>): nat {
    if s == [] then 0 else s[0].size + Total(s[1..])
  }

  ghost function Range(lo: int, n: nat): (r: set<int>)
    ensures forall u :: u in r <==> lo <= u < lo + n
    ensures |r| == n
  {
    if n == 0 then {} else Range(lo, n - 1) + {lo + n - 1}
  }

  ghost function Units(s: seq<Block>): set<int> {
    if s == [] then {} else Range(s[0].addr, s[0].size) + Units(s[1..])
  }

  lemma {:induction false} UnitsCovered(s: seq<Block>, u: int)
    requires Apart(s)
    ensures u in Units(s) <==> Covers(s, u)
  {
    if s != [] {
      UnitsCovered(s[1..], u);
      TailCovers(s, u);
      assert s[0].Has(u) ==> Covers(s, u);
    }
  }

  /** The sizes of a coalesced list add up to the number of units it covers. */
  lemma {:induction false} UnitsTotal(s: seq<Block>)
    requires Apart(s)
    ensures |Units(s)| == Total(s)
  {
    if s != [] {
      UnitsTotal(s[1..]);
      var head := Range(s[0].addr, s[0].size);
      forall u | u in head
        ensures u !in Units(s[1..])
      {
        UnitsCovered(s[1..], u);
        TailCovers(s, u);
      }
      assert head !! Units(s[1..]);
    }
  }
}
