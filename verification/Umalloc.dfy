/** The Kernighan-Ritchie allocator of umalloc.c: a circular, address-ordered
    free list threaded through block headers. */
module Allocator {
  import opened Queues
  import opened FreeList

  const HEADER: nat := 8
  const PAGE: nat := 4096
  const UNITS_PER_PAGE: nat := 512
  const WORD: nat := 0x1_0000_0000

  /** Units asked for, in 32-bit arithmetic. */
  function NUnits(nbytes: nat): nat { (nbytes + HEADER - 1) % WORD / HEADER + 1 }

  /** Pages taken for nu units, in 32-bit arithmetic. */
  function PageCount(nu: nat): nat { 1 + nu * HEADER % WORD / PAGE }

  /** Pages actually obtained when left remain. */
  function PagesGot(nu: nat, left: nat): nat { if PageCount(nu) <= left then PageCount(nu) else left }

  /** A chunk of nu units can be had: its byte count does not wrap and the pages
      do not run out half-way. */
  predicate CanRefill(nu: nat, left: nat) { nu * HEADER < WORD && PageCount(nu) <= left }

  /** The payload behind the header is large enough unless the rounding wraps. */
  lemma PayloadFits(nbytes: nat)
    requires nbytes < WORD
    ensures (NUnits(nbytes) - 1) * HEADER >= nbytes <==> nbytes <= WORD - HEADER
  {
  }

  /** NUnits is the least number of units whose payload is large enough. */
  lemma NUnitsLeast(nbytes: nat, n: nat)
    requires nbytes <= WORD - HEADER && n > 0
    ensures (n - 1) * HEADER >= nbytes <==> n >= NUnits(nbytes)
  {
  }

  /** The units asked for overflow a 32-bit byte count for eight sizes only. */
  lemma BytesFit(nbytes: nat)
    requires nbytes < WORD
    ensures NUnits(nbytes) * HEADER < WORD <==> nbytes < WORD - 15 || nbytes > WORD - 8
  {
  }

  /** A chunk lies strictly inside its pages exactly when the byte count does not
      wrap and no page allocation failed half-way. */
  lemma ChunkInsidePages(nu: nat, pages: nat)
    requires 0 < pages <= PageCount(nu) && 0 < nu < WORD
    ensures nu < pages * UNITS_PER_PAGE <==> nu * HEADER < WORD && pages == PageCount(nu)
  {
  }

  // ----- the header fields hold the list -----

  ghost predicate Sized(s: seq<Block>, size: map<nat, nat>) {
    forall i :: 0 <= i < |s| ==> s[i].addr in size && size[s[i].addr] == s[i].size
  }

  ghost predicate LinkAt(s: seq<Block>, ptr: map<nat, nat>, i: nat)
    requires i < |s|
  {
    s[i].addr in ptr && ptr[s[i].addr] == s[After(i, |s|)].addr
  }

  ghost predicate Linked(s: seq<Block>, ptr: map<nat, nat>, size: map<nat, nat>) {
    Sized(s, size) && forall i :: 0 <= i < |s| ==> LinkAt(s, ptr, i)
  }

  /** Linked, but for the link out of block j. */
  ghost predicate LinkedBut(s: seq<Block>, j: int, ptr: map<nat, nat>, size: map<nat, nat>) {
    Sized(s, size) && forall i :: 0 <= i < |s| && i != j ==> LinkAt(s, ptr, i)
  }

  ghost predicate Distinct(s: seq<Block>) {
    forall i, j :: 0 <= i < j < |s| ==> s[i].addr != s[j].addr
  }

  /** umalloc.c:31-32: b takes the place of the block k it joins. */
  lemma JoinRightLinked(s: seq<Block>, b: Block, k: nat, ptr: map<nat, nat>, size: map<nat, nat>)
    requires |s| > 1 && k < |s| && Linked(s, ptr, size) && Distinct(s)
    requires forall i :: 0 <= i < |s| ==> s[i].addr != b.addr
    ensures s[k].addr in ptr && s[k].addr in size
    ensures LinkedBut(s[k := Block(b.addr, b.size + s[k].size)], Before(k, |s|),
                      ptr[b.addr := ptr[s[k].addr]], size[b.addr := b.size + size[s[k].addr]])
  {
    assert LinkAt(s, ptr, k);
    var t := s[k := Block(b.addr, b.size + s[k].size)];
    var ptr' := ptr[b.addr := ptr[s[k].addr]];
    forall i | 0 <= i < |t| && i != Before(k, |s|)
      ensures LinkAt(t, ptr', i)
    {
      assert LinkAt(s, ptr, i);
    }
  }

  /** umalloc.c:34: b goes in front of the block at k, or behind the last one. */
  lemma InsertLinked(s: seq<Block>, b: Block, k: nat, ptr: map<nat, nat>, size: map<nat, nat>)
    requires s != [] && k <= |s| && Linked(s, ptr, size)
    requires forall i :: 0 <= i < |s| ==> s[i].addr != b.addr
    ensures LinkedBut(s[..k] + [b] + s[k..], Before(k, |s| + 1),
                      ptr[b.addr := s[if k == |s| then 0 else k].addr], size[b.addr := b.size])
  {
    var t := s[..k] + [b] + s[k..];
    var ptr' := ptr[b.addr := s[if k == |s| then 0 else k].addr];
    forall i | 0 <= i < |t| && i != Before(k, |t|)
      ensures LinkAt(t, ptr', i)
    {
      if i != k { assert LinkAt(s, ptr, if i < k then i else i - 1); }
    }
  }

  /** umalloc.c:35-37, the joining case */
  lemma FoldLeftLinked(t: seq<Block>, k: nat, ptr: map<nat, nat>, size: map<nat, nat>)
    requires Distinct(t) && 0 < k < |t| && LinkedBut(t, k - 1, ptr, size)
    ensures t[k].addr in ptr && t[k].addr in size && t[k - 1].addr in size
    ensures Linked(FoldLeft(t, k), ptr[t[k - 1].addr := ptr[t[k].addr]],
                   size[t[k - 1].addr := size[t[k - 1].addr] + size[t[k].addr]])
  {
    assert LinkAt(t, ptr, k);
    var r := FoldLeft(t, k);
    var ptr' := ptr[t[k - 1].addr := ptr[t[k].addr]];
    forall i | 0 <= i < |r|
      ensures LinkAt(r, ptr', i)
    {
      if i != k - 1 { assert LinkAt(t, ptr, if i < k then i else i + 1); }
    }
  }

  /** umalloc.c:39 */
  lemma CloseLink(t: seq<Block>, k: nat, ptr: map<nat, nat>, size: map<nat, nat>)
    requires |t| > 1 && k < |t| && LinkedBut(t, Before(k, |t|), ptr, size) && Distinct(t)
    ensures Linked(t, ptr[t[Before(k, |t|)].addr := t[k].addr], size)
  {
    var ptr' := ptr[t[Before(k, |t|)].addr := t[k].addr];
    forall i | 0 <= i < |t|
      ensures LinkAt(t, ptr', i)
    {
      if i != Before(k, |t|) { assert LinkAt(t, ptr, i); }
    }
  }

  /** umalloc.c:85-86: taking block j out of the ring. */
  lemma UnlinkLinked(s: seq<Block>, j: nat, ptr: map<nat, nat>, size: map<nat, nat>)
    requires Distinct(s) && |s| > 1 && j < |s| && Linked(s, ptr, size)
    ensures s[j].addr in ptr
    ensures Linked(s[..j] + s[j + 1..], ptr[s[Before(j, |s|)].addr := ptr[s[j].addr]], size)
  {
    assert LinkAt(s, ptr, j);
    var t := s[..j] + s[j + 1..];
    var ptr' := ptr[s[Before(j, |s|)].addr := ptr[s[j].addr]];
    forall i | 0 <= i < |t|
      ensures LinkAt(t, ptr', i)
    {
      assert LinkAt(s, ptr, if i < j then i else i + 1);
    }
  }

  /** p is the address of the block in front of the gap that a falls in. */
  ghost predicate InFront(s: seq<Block>, a: nat, p: nat) {
    s != [] && exists k :: IsGap(s, a, k) && p == s[Before(k, |s|)].addr
  }

  // ----- blocks handed out and chunks taken -----

  ghost predicate LiveHas(live: set<Block>, u: int) {
    exists b :: b in live && b.Has(u)
  }

  /** Every unit of every chunk is either free or in one live block, and there
      are no others. */
  ghost predicate Partition(free: seq<Block>, live: set<Block>, chunks: seq<Block>) {
    && (forall u :: Covers(chunks, u) <==> Covers(free, u) || LiveHas(live, u))
    && (forall u :: !(Covers(free, u) && LiveHas(live, u)))
    && (forall b, c :: b in live && c in live && b != c ==> b.End() <= c.addr || c.End() <= b.addr)
  }

  ghost predicate LiveSized(live: set<Block>, size: map<nat, nat>) {
    forall b :: b in live ==> b.size > 0 && b.addr in size && size[b.addr] == b.size
  }

  /** Chunks touch neither each other nor base, and end before the next page. */
  ghost predicate ChunksApart(chunks: seq<Block>, base: nat, nextPage: nat) {
    && Apart(chunks)
    && forall i :: 0 <= i < |chunks| ==>
         && 0 < chunks[i].addr && chunks[i].End() < nextPage
         && (chunks[i].End() < base || base < chunks[i].addr)
  }

  lemma LiveReturnable(free: seq<Block>, live: set<Block>, chunks: seq<Block>, base: nat, nextPage: nat, b: Block)
    requires Partition(free, live, chunks) && ChunksApart(chunks, base, nextPage)
    requires b in live && b.size > 0
    ensures Returnable(free, b, base)
  {
    assert forall u :: b.Has(u) ==> LiveHas(live, u);
    assert !Covers(chunks, base);
    assert b.Has(base - 1) ==> Covers(chunks, base - 1);
  }

  /** A block that is free or live lies in one chunk. */
  lemma InOneChunk(chunks: seq<Block>, b: Block) returns (i: nat)
    requires Apart(chunks) && b.size > 0 && forall u :: b.Has(u) ==> Covers(chunks, u)
    ensures i < |chunks| && chunks[i].addr <= b.addr && b.End() <= chunks[i].End()
  {
    assert b.Has(b.addr);
    i :| 0 <= i < |chunks| && chunks[i].Has(b.addr);
    if chunks[i].End() < b.End() {
      assert b.Has(chunks[i].End());
    }
  }

  lemma Release(free: seq<Block>, live: set<Block>, chunks: seq<Block>, base: nat, b: Block, t: seq<Block>)
    requires Partition(free, live, chunks) && b in live && Freed(free, b, t, base)
    ensures Partition(t, live - {b}, chunks)
  {
    hide Covers, Apart, IsFreeList;
    assert live - {b} + {b} == live;
    forall u
      ensures LiveHas(live, u) <==> b.Has(u) || LiveHas(live - {b}, u)
      ensures !(b.Has(u) && LiveHas(live - {b}, u))
    {
      LiveAdd(live - {b}, b, u);
    }
  }

  lemma Grant(free: seq<Block>, live: set<Block>, chunks: seq<Block>, base: nat, b: Block, t: seq<Block>)
    requires Partition(free, live, chunks) && Taken(free, b, t, base) && b.size > 0
    requires forall c :: c in live ==> c.size > 0
    ensures b !in live && Partition(t, live + {b}, chunks)
  {
    forall u
      ensures LiveHas(live + {b}, u) <==> b.Has(u) || LiveHas(live, u)
    {
      if b.Has(u) { assert b in live + {b}; }
      if LiveHas(live, u) {
        var c :| c in live && c.Has(u);
        assert c in live + {b};
      }
    }
    forall c | c in live
      ensures b.End() <= c.addr || c.End() <= b.addr
    {
      var u := if b.addr <= c.addr then c.addr else b.addr;
      assert c.Has(u) ==> LiveHas(live, u);
      assert b.Has(u) ==> Covers(free, u);
    }
    assert b.Has(b.addr);
  }

  lemma LiveAdd(live: set<Block>, c: Block, u: int)
    ensures LiveHas(live + {c}, u) <==> c.Has(u) || LiveHas(live, u)
  {
    if c.Has(u) { assert c in live + {c}; }
    if LiveHas(live, u) {
      var b :| b in live && b.Has(u);
      assert b in live + {c};
    }
  }

  /** A fresh chunk is at first one live block. */
  lemma Grow(free: seq<Block>, live: set<Block>, chunks: seq<Block>, base: nat, nextPage: nat, c: Block)
    requires Partition(free, live, chunks) && ChunksApart(chunks, base, nextPage)
    requires c.addr == nextPage && c.size > 0
    requires forall b :: b in live ==> b.size > 0
    ensures c !in live && Partition(free, live + {c}, chunks + [c])
    ensures forall b :: b in live ==> b.addr != c.addr
  {
    assert forall u :: c.Has(u) ==> !Covers(chunks, u);
    forall u
      ensures LiveHas(live + {c}, u) <==> c.Has(u) || LiveHas(live, u)
      ensures Covers(chunks + [c], u) <==> c.Has(u) || Covers(chunks, u)
    {
      CoversConcat(chunks, [c], u);
      assert [c][0] == c;
      LiveAdd(live, c, u);
    }
    forall b | b in live
      ensures b.End() <= c.addr
    {
      assert b.Has(b.End() - 1) && LiveHas(live, b.End() - 1);
      assert Covers(chunks, b.End() - 1);
    }
    assert c.Has(c.addr);
  }

  lemma PagesUsed(chunks: seq<Block>, base: nat, page: nat, after: nat)
    requires ChunksApart(chunks, base, page) && page <= after
    ensures ChunksApart(chunks, base, after)
  {
  }

  lemma CanonOf(s: seq<Block>, base: nat)
    requires IsFreeList(s, base)
    ensures Canon(s, base)
  {
  }

  lemma GrowApart(chunks: seq<Block>, base: nat, nextPage: nat, c: Block, after: nat)
    requires ChunksApart(chunks, base, nextPage)
    requires c.addr == nextPage > 0 && c.size > 0 && c.End() < after
    requires after <= base || base < nextPage
    ensures ChunksApart(chunks + [c], base, after)
  {
  }

  /** umalloc.c:88-90: the block keeps its head, a header for the tail appears. */
  lemma SplitLinked(s: seq<Block>, i: nat, n: nat, base: nat, ptr: map<nat, nat>, size: map<nat, nat>)
    requires IsFreeList(s, base) && Linked(s, ptr, size) && i < |s| && 0 < n < s[i].size
    ensures Linked(CutOff(s, i, n), ptr, size[s[i].addr := s[i].size - n][Tail(s[i], n).addr := n])
  {
    var t := CutOff(s, i, n);
    forall j | 0 <= j < |t|
      ensures LinkAt(t, ptr, j)
    {
      assert LinkAt(s, ptr, j);
    }
  }

  lemma CutHeaders(s: seq<Block>, live: set<Block>, chunks: seq<Block>, base: nat, i: nat, n: nat, size: map<nat, nat>,
                   size': map<nat, nat>)
    requires Partition(s, live, chunks) && LiveSized(live, size) && i < |s| && 0 < n <= s[i].size
    requires forall a :: a in size && a != s[i].addr && a != Tail(s[i], n).addr ==> a in size' && size'[a] == size[a]
    requires Tail(s[i], n).addr in size' && size'[Tail(s[i], n).addr] == n
    ensures LiveSized(live + {Tail(s[i], n)}, size')
  {
    assert s[i].Has(s[i].addr) && s[i].Has(Tail(s[i], n).addr);
    forall c | c in live
      ensures c.addr != s[i].addr && c.addr != Tail(s[i], n).addr
    {
      assert c.Has(c.addr) && LiveHas(live, c.addr);
    }
  }

  lemma DistinctAddrs(s: seq<Block>)
    requires Apart(s)
    ensures Distinct(s)
  {
  }

  lemma PutInShape(s: seq<Block>, b: Block, k: nat)
    requires Distinct(s) && s != [] && k <= |s| && forall i :: 0 <= i < |s| ==> s[i].addr != b.addr
    requires JoinsRight(s, b, k) ==> |s| > 1
    ensures
      var t := PutIn(s, b, k);
      && |t| > 1 && k < |t| && t[k].addr == b.addr && Distinct(t)
      && t[Before(k, |t|)].addr == s[Before(k, |s|)].addr
      && (0 < k ==> t[k - 1] == s[k - 1])
  {
    var t := PutIn(s, b, k);
    forall i | 0 <= i < |t|
      ensures t[i].addr == if i == k then b.addr else if i < k || JoinsRight(s, b, k) then s[i].addr else s[i - 1].addr
    {
    }
  }

  /** What ufree reads at p and bp, and what it leaves after umalloc.c:30-34. */
  ghost predicate Located(s: seq<Block>, b: Block, k: nat, p: nat, ptr: map<nat, nat>, size: map<nat, nat>) {
    && k <= |s| && p in ptr && ptr[p] in ptr && ptr[p] in size && p in size
    && (b.End() == ptr[p] <==> JoinsRight(s, b, k))
    && (p + size[p] == b.addr <==> JoinsLeft(s, b, k))
    && p != b.addr
    && var t := PutIn(s, b, k);
       && |t| > 1 && k < |t| && t[k].addr == b.addr && Distinct(t) && t[Before(k, |t|)].addr == p
       && LinkedBut(t, Before(k, |t|),
                    ptr[b.addr := if b.End() == ptr[p] then ptr[ptr[p]] else ptr[p]],
                    size[b.addr := if b.End() == ptr[p] then b.size + size[ptr[p]] else b.size])
  }

  /** The two comparisons of ufree decide what touches what. */
  lemma GapTests(s: seq<Block>, b: Block, k: nat, base: nat)
    requires IsFreeList(s, base) && Returnable(s, b, base) && IsGap(s, b.addr, k)
    ensures
      var j := Before(k, |s|);
      && |s| > 0
      && After(j, |s|) == (if k == |s| then 0 else k)
      && (b.End() == s[After(j, |s|)].addr <==> JoinsRight(s, b, k))
      && (s[j].End() == b.addr <==> JoinsLeft(s, b, k))
      && (JoinsRight(s, b, k) ==> |s| > 1)
    ensures Distinct(s) && forall i :: 0 <= i < |s| ==> s[i].addr != b.addr
  {
    GapRoom(s, b, k, base);
    DistinctAddrs(s);
  }

  lemma RightHalf(s: seq<Block>, b: Block, k: nat, p: nat, ptr: map<nat, nat>, size: map<nat, nat>, base: nat)
    requires IsFreeList(s, base) && Returnable(s, b, base) && IsGap(s, b.addr, k) && Linked(s, ptr, size)
    requires p == s[Before(k, |s|)].addr
    ensures Located(s, b, k, p, ptr, size)
  {
    hide IsFreeList, Returnable, IsGap;
    GapTests(s, b, k, base);
    var j := Before(k, |s|);
    assert LinkAt(s, ptr, j) && LinkAt(s, ptr, After(j, |s|));
    if JoinsRight(s, b, k) {
      JoinRightLinked(s, b, k, ptr, size);
    } else {
      InsertLinked(s, b, k, ptr, size);
    }
    PutInShape(s, b, k);
  }

  /** Headers of live blocks are not headers of free ones. */
  lemma LiveNotFree(free: seq<Block>, live: set<Block>, chunks: seq<Block>, base: nat, nextPage: nat, b: Block, j: nat)
    requires Partition(free, live, chunks) && ChunksApart(chunks, base, nextPage) && Canon(free, base)
    requires b in live && b.size > 0 && j < |free|
    ensures b.addr != free[j].addr
  {
    assert b.Has(b.addr) && LiveHas(live, b.addr) && Covers(chunks, b.addr);
    assert free[j].size > 0 ==> free[j].Has(free[j].addr) && Covers(free, free[j].addr);
    assert !Covers(chunks, base);
  }

  /** Before a live block is linked in: its gap, and whose headers change. */
  lemma FreePrepared(s: seq<Block>, live: set<Block>, chunks: seq<Block>, base: nat, nextPage: nat,
                     ptr: map<nat, nat>, size: map<nat, nat>, b: Block) returns (k: nat)
    requires IsFreeList(s, base) && Linked(s, ptr, size) && LiveSized(live, size)
    requires Partition(s, live, chunks) && ChunksApart(chunks, base, nextPage) && b in live
    ensures IsGap(s, b.addr, k) && Returnable(s, b, base)
    ensures Located(s, b, k, s[Before(k, |s|)].addr, ptr, size)
    ensures forall c :: c in live - {b} ==> c.addr != b.addr && c.addr != s[Before(k, |s|)].addr
    ensures base > 0 ==> s[Before(k, |s|)].addr > 0
  {
    LiveReturnable(s, live, chunks, base, nextPage, b);
    forall j | 0 <= j < |s|
      ensures s[j].addr != b.addr
    {
      LiveNotFree(s, live, chunks, base, nextPage, b, j);
    }
    k := GapExists(s, b.addr);
    RightHalf(s, b, k, s[Before(k, |s|)].addr, ptr, size, base);
    forall c | c in live - {b}
      ensures c.addr != b.addr && c.addr != s[Before(k, |s|)].addr
    {
      LiveNotFree(s, live, chunks, base, nextPage, c, Before(k, |s|));
    }
    FreePositive(s, live, chunks, base, nextPage, Before(k, |s|));
  }

  lemma FreePositive(s: seq<Block>, live: set<Block>, chunks: seq<Block>, base: nat, nextPage: nat, j: nat)
    requires Partition(s, live, chunks) && ChunksApart(chunks, base, nextPage) && Canon(s, base) && j < |s|
    ensures base > 0 ==> s[j].addr > 0
  {
    assert s[j].size > 0 ==> s[j].Has(s[j].addr) && Covers(s, s[j].addr);
  }

  /** After it: the list has the units, and the others are as they were. */
  lemma FreeDone(s: seq<Block>, live: set<Block>, chunks: seq<Block>, base: nat, b: Block, k: nat, p: nat,
                 size: map<nat, nat>, size': map<nat, nat>)
    requires IsFreeList(s, base) && Returnable(s, b, base) && IsGap(s, b.addr, k)
    requires Partition(s, live, chunks) && b in live && LiveSized(live, size)
    requires forall c :: c in live - {b} ==> c.addr != b.addr && c.addr != p
    requires forall a :: a in size && a != b.addr && a != p ==> a in size' && size'[a] == size[a]
    ensures Freed(s, b, Coalesce(s, b, k), base) && IsFreeList(Coalesce(s, b, k), base)
    ensures Partition(Coalesce(s, b, k), live - {b}, chunks) && LiveSized(live - {b}, size')
  {
    CoalesceFrees(s, b, k, base);
    Release(s, live, chunks, base, b, Coalesce(s, b, k));
  }

  // ----- the search -----

  /** The m-th block met when the walk starts behind block r. */
  function Nth(r: nat, m: nat, len: nat): nat { if r + 1 + m < len then r + 1 + m else r + 1 + m - len }

  ghost predicate NoneFits(s: seq<Block>, n: nat) {
    forall i :: 0 <= i < |s| ==> s[i].size < n
  }

  /** The m-th block behind the rover is the first that has n units. */
  ghost predicate FirstFit(s: seq<Block>, rover: nat, n: nat, m: nat) {
    && rover < |s| && m < |s|
    && s[Nth(rover, m, |s|)].size >= n
    && forall x :: 0 <= x < m ==> s[Nth(rover, x, |s|)].size < n
  }

  /** umalloc.c:27-29: the walk of ufree stops at the gap and nowhere else. */
  lemma StopsAtGap(s: seq<Block>, a: nat, k: nat, i: nat)
    requires Apart(s) && s != [] && IsGap(s, a, k) && i < |s|
    ensures
      var p, next := s[i].addr, s[After(i, |s|)].addr;
      (p < a < next) || (p >= next && (a > p || a < next)) <==> i == Before(k, |s|)
  {
  }

  function Distance(i: nat, target: nat, len: nat): int {
    if i <= target then target - i else target - i + len
  }

  lemma NUnitsRange(nbytes: nat)
    ensures 0 < NUnits(nbytes) < WORD
  {
  }

  lemma AtRover(s: seq<Block>, rover: nat, m: nat, base: nat)
    requires IsFreeList(s, base) && rover < |s| && m < |s|
    ensures s[Nth(rover, m, |s|)].addr == s[rover].addr <==> m == |s| - 1
  {
  }

  /** One walk behind the rover meets every block. */
  lemma WholeRing(s: seq<Block>, rover: nat, n: nat)
    requires rover < |s|
    requires forall x :: 0 <= x < |s| ==> s[Nth(rover, x, |s|)].size < n
    ensures NoneFits(s, n)
  {
    forall i | 0 <= i < |s|
      ensures s[i].size < n
    {
      var x := if i > rover then i - rover - 1 else i - rover - 1 + |s|;
      assert Nth(rover, x, |s|) == i;
    }
  }

  /** A list that covers n consecutive units in one piece has a block of n. */
  lemma ChunkFits(s: seq<Block>, c: Block, t: seq<Block>, base: nat)
    requires Freed(s, c, t, base) && c.size > 0
    ensures !NoneFits(t, c.size)
  {
    var i := InOneChunk(t, c);
  }

  // ----- the allocator -----

  class Heap {
    const base: nat
    var ptr: map<nat, nat>    // s.ptr of the header at an address; 0 is NULL
    var size: map<nat, nat>   // s.size of the header at an address
    var freep: nat
    var nextPage: nat         // what the page bump allocator hands out next
    var pagesLeft: nat        // how often it still succeeds

    ghost var free: seq<Block>
    ghost var rover: nat      // freep is block number rover of free
    ghost var live: set<Block>
    ghost var chunks: seq<Block>

    ghost predicate Ready()
      reads this
    {
      && IsFreeList(free, base) && Linked(free, ptr, size)
      && rover < |free| && freep == free[rover].addr
    }

    ghost predicate Valid()
      reads this
    {
      && base > 0 && nextPage > 0
      && (nextPage + pagesLeft * UNITS_PER_PAGE <= base || base < nextPage)
      && (if freep == 0 then free == [] && live == {} else Ready())
      && LiveSized(live, size)
      && Partition(free, live, chunks)
      && ChunksApart(chunks, base, nextPage)
    }

    constructor (base: nat, firstPage: nat, pages: nat)
      requires base > 0 && firstPage > 0
      requires firstPage + pages * UNITS_PER_PAGE <= base || base < firstPage
      ensures Valid() && free == [] && live == {} && chunks == [] && pagesLeft == pages
    {
      this.base := base;
      ptr, size := map[], map[];
      freep, nextPage, pagesLeft := 0, firstPage, pages;
      free, rover, live, chunks := [], 0, {}, [];
    }

    /** Walks to the block behind whose gap bp lies. */
    method FindGap(bp: nat, ghost k: nat) returns (p: nat)
      requires freep != 0 && Ready() && IsGap(free, bp, k)
      ensures p == free[Before(k, |free|)].addr
    {
      ghost var i: nat := rover;
      ghost var target := Before(k, |free|);
      p := freep;
      assert LinkAt(free, ptr, i);
      StopsAtGap(free, bp, k, i);
      while !(p < bp < ptr[p])
        invariant i < |free| && p == free[i].addr && LinkAt(free, ptr, i)
        invariant p < bp < ptr[p] ==> i == target
        decreases Distance(i, target, |free|)
      {
        StopsAtGap(free, bp, k, i);
        if p >= ptr[p] && (bp > p || bp < ptr[p]) {
          break;
        }
        p := ptr[p];
        i := After(i, |free|);
        assert LinkAt(free, ptr, i);
        StopsAtGap(free, bp, k, i);
      }
    }

    /** umalloc.c:30-40: bp goes in behind p and joins the neighbours it touches. */
    method LinkIn(bp: nat, p: nat, ghost b: Block, ghost k: nat)
      requires Located(free, b, k, p, ptr, size)
      requires b.addr == bp && bp in size && size[bp] == b.size
      modifies this`ptr, this`size, this`freep, this`free, this`rover
      ensures free == Coalesce(old(free), b, k)
      ensures Linked(free, ptr, size) && rover < |free| && freep == free[rover].addr == p
      ensures forall a :: a in old(size) && a != bp && a != p ==> a in size && size[a] == old(size[a])
    {
      ghost var left, t := JoinsLeft(free, b, k), PutIn(free, b, k);
      assert left ==> 0 < k;
      if bp + size[bp] == ptr[p] {
        size := size[bp := size[bp] + size[ptr[p]]];
        ptr := ptr[bp := ptr[ptr[p]]];
      } else {
        ptr := ptr[bp := ptr[p]];
        assert size == size[bp := b.size];
      }
      assert LinkedBut(t, Before(k, |t|), ptr, size);
      assert p + size[p] == bp <==> left;
      if p + size[p] == bp {
        FoldLeftLinked(t, k, ptr, size);
        size := size[p := size[p] + size[bp]];
        ptr := ptr[p := ptr[bp]];
        free := FoldLeft(t, k);
        rover := k - 1;
      } else {
        CloseLink(t, k, ptr, size);
        ptr := ptr[p := bp];
        free := t;
        rover := Before(k, |t|);
      }
      freep := p;
    }

    method Ufree(ap: nat)
      requires Valid() && ap > 0 && ap - 1 in size && Block(ap - 1, size[ap - 1]) in live
      modifies this
      ensures Valid()
      ensures Freed(old(free), Block(ap - 1, old(size[ap - 1])), free, base)
      ensures live == old(live) - {Block(ap - 1, old(size[ap - 1]))}
      ensures InFront(old(free), ap - 1, freep) && rover < |free| && freep == free[rover].addr
      ensures chunks == old(chunks) && nextPage == old(nextPage) && pagesLeft == old(pagesLeft)
      ensures freep != 0
    {
      hide Partition, Apart, Canon, ChunksApart, Linked, Returnable, Freed, IsFreeList, Located, Coalesce;
      var bp := ap - 1;
      ghost var b := Block(bp, size[bp]);
      ghost var s := free;
      ghost var k := FreePrepared(s, live, chunks, base, nextPage, ptr, size, b);
      var p := FindGap(bp, k);
      LinkIn(bp, p, b, k);
      assert InFront(s, bp, p);
      FreeDone(s, live, chunks, base, b, k, p, old(size), size);
      live := live - {b};
    }

    /** cos_page_bump_alloc: consecutive pages until there are none; -1 then. */
    method PageBumpAlloc() returns (p: int)
      modifies this`nextPage, this`pagesLeft
      ensures old(pagesLeft) == 0 ==> p == -1 && nextPage == old(nextPage) && pagesLeft == 0
      ensures old(pagesLeft) > 0 ==>
        p == old(nextPage) && nextPage == old(nextPage) + UNITS_PER_PAGE && pagesLeft == old(pagesLeft) - 1
    {
      if pagesLeft == 0 {
        return -1;
      }
      p := nextPage;
      nextPage := nextPage + UNITS_PER_PAGE;
      pagesLeft := pagesLeft - 1;
    }

    /** umalloc.c:53-62: the pages of one chunk, or as many as there are. */
    method TakePages(nu: nat) returns (p: int)
      modifies this`nextPage, this`pagesLeft
      ensures p == if old(pagesLeft) == 0 then -1 else old(nextPage)
      ensures nextPage == old(nextPage) + PagesGot(nu, old(pagesLeft)) * UNITS_PER_PAGE
      ensures pagesLeft == old(pagesLeft) - PagesGot(nu, old(pagesLeft))
    {
      p := PageBumpAlloc();
      if nu * HEADER % WORD / PAGE > 0 {
        var k := nu * HEADER % WORD / PAGE;
        for i := 0 to k
          invariant p == if old(pagesLeft) == 0 then -1 else old(nextPage)
          invariant pagesLeft == if 1 + i <= old(pagesLeft) then old(pagesLeft) - (1 + i) else 0
          invariant nextPage == old(nextPage) + (old(pagesLeft) - pagesLeft) * UNITS_PER_PAGE
        {
          var _ := PageBumpAlloc();
        }
      }
    }

    /** Gets one chunk of nu units and puts it in the free list.  If the pages obtained
        do not hold the chunk, the code goes on regardless, into memory that is not its
        own; the model stops there and says so. */
    method Morecore(nu: nat) returns (p: nat, overran: bool)
      requires Valid() && freep != 0 && 0 < nu < WORD
      modifies this
      ensures Valid() && freep != 0 && live == old(live)
      ensures overran <==> old(pagesLeft) > 0 && !CanRefill(nu, old(pagesLeft))
      ensures p == if old(pagesLeft) == 0 || overran then 0 else freep
      ensures old(pagesLeft) == 0 || overran ==> free == old(free) && rover == old(rover) && chunks == old(chunks)
      ensures old(pagesLeft) > 0 && !overran ==>
        && chunks == old(chunks) + [Block(old(nextPage), nu)]
        && Freed(old(free), Block(old(nextPage), nu), free, base)
        && InFront(old(free), old(nextPage), freep) && rover < |free| && freep == free[rover].addr
      ensures nextPage == old(nextPage) + PagesGot(nu, old(pagesLeft)) * UNITS_PER_PAGE
      ensures pagesLeft == old(pagesLeft) - PagesGot(nu, old(pagesLeft))
    {
      hide Partition, ChunksApart, IsFreeList, Linked, LiveSized, Apart, Canon, Covers;
      ghost var c := Block(nextPage, nu);
      var left := pagesLeft;
      var hp := TakePages(nu);
      PagesUsed(chunks, base, old(nextPage), nextPage);
      if hp == -1 {
        return 0, false;
      }
      ChunkInsidePages(nu, left - pagesLeft);
      if nu >= (left - pagesLeft) * UNITS_PER_PAGE {
        return 0, true;
      }
      AddChunk(hp, nu, old(nextPage));
      Ufree(hp + 1);
      return freep, false;
    }

    /** umalloc.c:66-67: the chunk gets a header and is, until it is freed, live. */
    method AddChunk(hp: nat, nu: nat, ghost page: nat)
      requires Valid() && freep != 0 && nu > 0 && hp == page > 0 && hp + nu < nextPage
      requires ChunksApart(chunks, base, page) && (nextPage <= base || base < page)
      modifies this`size, this`live, this`chunks
      ensures Valid() && hp in size && size[hp] == nu
      ensures Block(hp, nu) !in old(live) && live == old(live) + {Block(hp, nu)}
      ensures chunks == old(chunks) + [Block(hp, nu)]
    {
      hide Partition, ChunksApart, IsFreeList, Linked;
      ghost var c := Block(hp, nu);
      Grow(free, live, chunks, base, page, c);
      GrowApart(chunks, base, page, c, nextPage);
      CanonOf(free, base);
      FreshHeader(free, live, chunks, base, page, ptr, size, nu);
      size := size[hp := nu];
      live := live + {c};
      chunks := chunks + [c];
    }

    /** umalloc.c:85-86: block i, at p behind prevp, leaves the list. */
    method TakeWhole(prevp: nat, p: nat, ghost i: nat)
      requires Ready() && i < |free| && free[i].size > 0
      requires p == free[i].addr && p in ptr && prevp == free[Before(i, |free|)].addr
      requires |free| > 1 && Linked(CutOff(free, i, free[i].size), ptr[prevp := ptr[p]], size)
      modifies this`ptr, this`freep, this`free, this`rover
      ensures free == CutOff(old(free), i, old(free[i].size)) && freep == prevp
      ensures Linked(free, ptr, size) && rover < |free| && freep == free[rover].addr
    {
      hide IsFreeList, Linked;
      CutRover(free, i, free[i].size);
      ptr := ptr[prevp := ptr[p]];
      rover := if i == 0 then |free| - 2 else i - 1;
      free := CutOff(free, i, free[i].size);
      freep := prevp;
    }

    /** umalloc.c:87-91: the last nunits of block i become a block of their own. */
    method TakeTail(prevp: nat, p0: nat, nunits: nat, ghost i: nat) returns (p: nat)
      requires Ready() && i < |free| && 0 < nunits < free[i].size
      requires p0 == free[i].addr && p0 in size && size[p0] == free[i].size
      requires prevp == free[Before(i, |free|)].addr
      requires Linked(CutOff(free, i, nunits), ptr, size[p0 := size[p0] - nunits][p0 + (size[p0] - nunits) := nunits])
      requires |free| > 1
      modifies this`size, this`freep, this`free, this`rover
      ensures free == CutOff(old(free), i, nunits) && freep == prevp
      ensures p == Tail(old(free[i]), nunits).addr
      ensures size == old(size)[p0 := old(size[p0]) - nunits][p := nunits]
      ensures Linked(free, ptr, size) && rover < |free| && freep == free[rover].addr
    {
      hide IsFreeList, Linked;
      CutRover(free, i, nunits);
      p := p0;
      size := size[p := size[p] - nunits];
      p := p + size[p];
      size := size[p := nunits];
      rover := Before(i, |free|);
      free := CutOff(free, i, nunits);
      freep := prevp;
    }

    /** umalloc.c:85-93: takes nunits off block i, which is at p behind prevp. */
    method Carve(prevp: nat, p0: nat, nunits: nat, ghost i: nat) returns (ap: nat)
      requires Valid() && freep != 0 && i < |free|
      requires p0 == free[i].addr && prevp == free[Before(i, |free|)].addr
      requires 0 < nunits <= free[i].size
      modifies this`ptr, this`size, this`freep, this`free, this`rover, this`live
      ensures Valid() && freep == prevp != 0
      ensures free == CutOff(old(free), i, nunits) && Taken(old(free), Tail(old(free[i]), nunits), free, base)
      ensures ap == Tail(old(free[i]), nunits).addr + 1
      ensures live == old(live) + {Tail(old(free[i]), nunits)} && Tail(old(free[i]), nunits) !in old(live)
    {
      hide IsFreeList, Linked, Partition, ChunksApart, LiveSized, Taken, CutOff;
      ghost var b := Tail(free[i], nunits);
      CarvePrepared(free, live, chunks, base, nextPage, ptr, size, i, nunits);
      var p := p0;
      if size[p] == nunits {
        TakeWhole(prevp, p, i);
      } else {
        p := TakeTail(prevp, p, nunits, i);
      }
      live := live + {b};
      return p + 1;
    }

    /** umalloc.c:79-82: the first call makes base a ring of one empty block. */
    method EnsureBase() returns (prevp: nat)
      requires Valid()
      modifies this`ptr, this`size, this`freep, this`free, this`rover
      ensures Valid() && prevp == freep != 0
      ensures old(freep) != 0 ==> free == old(free) && rover == old(rover) && freep == old(freep)
      ensures old(freep) == 0 ==> free == [Block(base, 0)] && rover == 0
    {
      hide Partition, ChunksApart;
      prevp := freep;
      if prevp == 0 {
        prevp := base;
        freep := base;
        ptr := ptr[base := base];
        size := size[base := 0];
        StartUnits(live, chunks, base);
        free := [Block(base, 0)];
        rover := 0;
        assert free[0] == Block(base, 0) && LinkAt(free, ptr, 0);
      }
    }

    /** The walk of umalloc stands at the m-th block behind the rover and has
        passed only blocks that are too small. */
    ghost predicate Scanning(prevp: nat, p: nat, n: nat, m: nat)
      reads this
    {
      && Valid() && freep != 0 && m < |free|
      && p == free[Nth(rover, m, |free|)].addr
      && prevp == free[Before(Nth(rover, m, |free|), |free|)].addr
      && forall x :: 0 <= x < m ==> free[Nth(rover, x, |free|)].size < n
    }

    lemma ScanStarts(n: nat)
      requires Valid() && freep != 0
      ensures freep in ptr && Scanning(freep, ptr[freep], n, 0) && 0 < |free| && IsFreeList(free, base)
      ensures rover < |free| && freep == free[rover].addr
    {
      assert LinkAt(free, ptr, rover);
    }

    lemma ScanMoves(prevp: nat, p: nat, n: nat, m: nat)
      requires Scanning(prevp, p, n, m)
      ensures p in size && p in ptr
      ensures size[p] < n && p == freep ==> NoneFits(free, n)
      ensures size[p] < n && p != freep ==> Scanning(p, ptr[p], n, m + 1) && m + 1 < |free|
      ensures size[p] >= n ==> !NoneFits(free, n)
    {
      var j := Nth(rover, m, |free|);
      hide IsFreeList, Partition, ChunksApart, LiveSized;
      assert LinkAt(free, ptr, j);
      AtRover(free, rover, m, base);
      if size[p] < n && p == freep {
        WholeRing(free, rover, n);
      }
    }

    method CarveFound(prevp: nat, p: nat, nunits: nat, ghost m: nat) returns (ap: nat)
      requires Scanning(prevp, p, nunits, m) && p in size && 0 < nunits <= size[p]
      modifies this`ptr, this`size, this`freep, this`free, this`rover, this`live
      ensures Valid() && freep != 0 && Granted(old(free), old(rover), nunits, m, ap, free, freep, base)
      ensures ap > 0 && live == old(live) + {Block(ap - 1, nunits)} && Block(ap - 1, nunits) !in old(live)
    {
      hide IsFreeList, Partition, ChunksApart, LiveSized, Taken, CutOff;
      ap := Carve(prevp, p, nunits, Nth(rover, m, |free|));
    }

    /** First fit behind freep.  The list is searched once; if nothing fits, it is
        refilled once, by exactly the units asked for, and searched once more.
        searched is the list the block was found in, start the rover then. */
    method Umalloc(nbytes: nat)
      returns (ap: nat, overran: bool, ghost searched: seq<Block>, ghost start: nat, ghost m: nat)
      requires Valid()
      modifies this
      ensures Valid() && freep != 0
      ensures
        var n, was := NUnits(nbytes), if old(freep) == 0 then [Block(base, 0)] else old(free);
        var chunk, short := Block(old(nextPage), n), NoneFits(was, n) && old(pagesLeft) > 0;
        && (overran <==> short && !CanRefill(n, old(pagesLeft)))
        && chunks == (if short && !overran then old(chunks) + [chunk] else old(chunks))
        && (if short && !overran then Freed(was, chunk, searched, base) else searched == was)
        && start < |searched|
        && (!short && old(freep) != 0 ==> searched[start].addr == old(freep))
        && (short && !overran ==> InFront(was, chunk.addr, searched[start].addr))
        && (var got := if short then PagesGot(n, old(pagesLeft)) else 0;
            nextPage == old(nextPage) + got * UNITS_PER_PAGE && pagesLeft == old(pagesLeft) - got)
        && (ap == 0 <==> NoneFits(was, n) && (old(pagesLeft) == 0 || overran))
        && (ap == 0 ==> free == was && live == old(live))
        && (ap != 0 ==> Granted(searched, start, n, m, ap, free, freep, base))
        && (ap != 0 ==> live == old(live) + {Block(ap - 1, n)} && Block(ap - 1, n) !in old(live))
      ensures IsFreeList(searched, base)
    {
      hide Valid, Scanning, Granted, Freed, NUnits, PageCount, NoneFits, IsFreeList, CanRefill, InFront, PagesGot;
      var nunits := NUnits(nbytes);
      NUnitsRange(nbytes);
      var prevp := EnsureBase();
      ghost var was, refilled := free, false;
      searched, start, m, overran := free, rover, 0, false;
      ScanStarts(nunits);
      var p := ptr[prevp];
      while true
        invariant Scanning(prevp, p, nunits, m) && Valid() && freep != 0 && live == old(live) && m < |free| && !overran
        invariant searched == free && start == rover && IsFreeList(free, base)
        invariant !refilled ==>
          && free == was && chunks == old(chunks) && pagesLeft == old(pagesLeft) && nextPage == old(nextPage)
        invariant start < |searched| && (!refilled && old(freep) != 0 ==> searched[start].addr == old(freep))
        invariant refilled ==> InFront(was, old(nextPage), searched[start].addr)
        invariant refilled ==>
          && nextPage == old(nextPage) + PagesGot(nunits, old(pagesLeft)) * UNITS_PER_PAGE
          && pagesLeft == old(pagesLeft) - PagesGot(nunits, old(pagesLeft))
        invariant refilled ==> NoneFits(was, nunits) && old(pagesLeft) > 0 && !NoneFits(free, nunits)
        invariant refilled ==> Freed(was, Block(old(nextPage), nunits), free, base) && CanRefill(nunits, old(pagesLeft))
        invariant refilled ==> chunks == old(chunks) + [Block(old(nextPage), nunits)]
        decreases !refilled, |free| - m
      {
        ScanMoves(prevp, p, nunits, m);
        if size[p] >= nunits {
          ap := CarveFound(prevp, p, nunits, m);
          return;
        }
        if p == freep {
          p, overran := Morecore(nunits);
          if p == 0 {
            return 0, overran, searched, start, m;
          }
          ChunkFits(was, Block(old(nextPage), nunits), free, base);
          refilled, searched, start, m := true, free, rover, 0;
          ScanStarts(nunits);
        } else {
          m := m + 1;
        }
        prevp := p;
        p := ptr[p];
      }
    }
  }

  /** A block of n units with payload address ap is the tail of the first block
      behind start that has n units; nothing else changed hands. */
  ghost predicate Granted(searched: seq<Block>, start: nat, n: nat, m: nat, ap: nat, t: seq<Block>,
                          freep: nat, base: nat) {
    && FirstFit(searched, start, n, m) && ap > 0
    && var j := Nth(start, m, |searched|);
       && Block(ap - 1, n) == Tail(searched[j], n)
       && Taken(searched, Block(ap - 1, n), t, base)
       && freep == searched[Before(j, |searched|)].addr
  }

  // ----- the laws of the free list, on the heap itself -----

  lemma GrantedTakes(searched: seq<Block>, start: nat, n: nat, m: nat, ap: nat, t: seq<Block>, freep: nat, base: nat)
    requires Granted(searched, start, n, m, ap, t, freep, base)
    ensures ap > 0 && Taken(searched, Block(ap - 1, n), t, base)
  {
  }

  lemma LiveHeader(h: Heap, b: Block)
    requires h.Valid() && b in h.live
    ensures b.size > 0 && b.addr in h.size && h.size[b.addr] == b.size
  {
  }

  /** ufree(umalloc(nbytes)) leaves the free list as the search found it, which is the
      list before the call unless the heap had to be refilled. */
  method AllocateAndFree(h: Heap, nbytes: nat) returns (ap: nat, overran: bool)
    requires h.Valid()
    modifies h
    ensures h.Valid() && h.freep != 0 && h.live == old(h.live)
    ensures
      var n, was := NUnits(nbytes), if old(h.freep) == 0 then [Block(h.base, 0)] else old(h.free);
      if ap == 0 || !NoneFits(was, n) then h.free == was
      else Freed(was, Block(old(h.nextPage), n), h.free, h.base)
  {
    hide Granted, Freed, Taken, NUnits, NoneFits, CanRefill, IsFreeList, h.Valid;
    ghost var searched, start, m;
    ap, overran, searched, start, m := h.Umalloc(nbytes);
    if ap != 0 {
      ghost var b := Block(ap - 1, NUnits(nbytes));
      GrantedTakes(searched, start, NUnits(nbytes), m, ap, h.free, h.freep, h.base);
      LiveHeader(h, b);
      ghost var t := h.free;
      h.Ufree(ap);
      RoundTrip(searched, b, t, h.free, h.base);
    }
  }

  /** Two live blocks, given back in either order, leave the same free list. */
  method FreeEitherWay(h: Heap, g: Heap, a: nat, b: nat)
    requires h != g && h.Valid() && g.Valid() && h.base == g.base && h.free == g.free && h.live == g.live
    requires a > 0 && b > 0 && a != b && a - 1 in h.size && b - 1 in h.size
    requires Block(a - 1, h.size[a - 1]) in h.live && Block(b - 1, h.size[b - 1]) in h.live
    modifies h, g
    ensures h.Valid() && g.Valid() && h.free == g.free && h.live == g.live
    ensures h.live == old(h.live) - {Block(a - 1, old(h.size[a - 1])), Block(b - 1, old(h.size[b - 1]))}
  {
    hide Freed, IsFreeList, h.Valid;
    ghost var s, ba, bb := h.free, Block(a - 1, h.size[a - 1]), Block(b - 1, h.size[b - 1]);
    LiveHeader(g, ba);
    LiveHeader(g, bb);
    h.Ufree(a);
    ghost var h1 := h.free;
    LiveHeader(h, bb);
    h.Ufree(b);
    g.Ufree(b);
    ghost var g1 := g.free;
    LiveHeader(g, ba);
    g.Ufree(a);
    BothWays(s, ba, bb, h1, h.free, g1, g.free, h.base);
  }

  lemma BothWays(s: seq<Block>, a: Block, b: Block, s1: seq<Block>, s2: seq<Block>, t1: seq<Block>, t2: seq<Block>,
                 base: nat)
    requires Freed(s, a, s1, base) && Freed(s1, b, s2, base)
    requires Freed(s, b, t1, base) && Freed(t1, a, t2, base)
    ensures s2 == t2
  {
    hide Freed;
    assert multiset([a, b]) == multiset([b, a]);
    OrderIndependent([s, s1, s2], [a, b], [s, t1, t2], [b, a], base);
  }

  // ----- conservation -----

  ghost function SumSizes(live: set<Block>): nat {
    if live == {} then 0 else var b :| b in live; b.size + SumSizes(live - {b})
  }

  ghost function LiveUnits(live: set<Block>): set<int> {
    set b, u | b in live && u in Range(b.addr, b.size) :: u
  }

  lemma LiveUnitsHave(live: set<Block>, u: int)
    ensures u in LiveUnits(live) <==> LiveHas(live, u)
  {
    assert forall b :: b in live ==> (u in Range(b.addr, b.size) <==> b.Has(u));
  }

  lemma LiveUnitsWithout(live: set<Block>, b: Block)
    requires b in live
    requires forall c :: c in live && b != c ==> b.End() <= c.addr || c.End() <= b.addr
    ensures Range(b.addr, b.size) !! LiveUnits(live - {b})
    ensures LiveUnits(live) == Range(b.addr, b.size) + LiveUnits(live - {b})
  {
    hide LiveUnits;
    assert live - {b} + {b} == live;
    forall u
      ensures u in LiveUnits(live) <==> u in Range(b.addr, b.size) || u in LiveUnits(live - {b})
      ensures !(u in Range(b.addr, b.size) && u in LiveUnits(live - {b}))
    {
      LiveUnitsHave(live, u);
      LiveUnitsHave(live - {b}, u);
      LiveAdd(live - {b}, b, u);
    }
  }

  lemma {:induction false} LiveUnitsTotal(live: set<Block>)
    requires forall b, c :: b in live && c in live && b != c ==> b.End() <= c.addr || c.End() <= b.addr
    ensures |LiveUnits(live)| == SumSizes(live)
  {
    if live == {} {
      assert LiveUnits(live) == {};
    } else {
      var b :| b in live && SumSizes(live) == b.size + SumSizes(live - {b});
      LiveUnitsTotal(live - {b});
      LiveUnitsWithout(live, b);
    }
  }

  /** Units free plus units in live blocks are the units of all chunks. */
  lemma Conservation(h: Heap)
    requires h.Valid()
    ensures Total(h.free) + SumSizes(h.live) == Total(h.chunks)
  {
    var f, l, c := Units(h.free), LiveUnits(h.live), Units(h.chunks);
    assert Apart(h.free);
    UnitsTotal(h.free);
    UnitsTotal(h.chunks);
    LiveUnitsTotal(h.live);
    forall u
      ensures u in c <==> u in f || u in l
      ensures !(u in f && u in l)
    {
      UnitsCovered(h.free, u);
      UnitsCovered(h.chunks, u);
      LiveUnitsHave(h.live, u);
    }
    assert c == f + l && f !! l;
  }

  /** Once everything is given back, the free list is base and the whole chunks:
      no block has been lost, split for good or merged across chunks. */
  lemma AllReturned(h: Heap, t: seq<Block>)
    requires h.Valid() && h.freep != 0 && h.live == {}
    requires IsFreeList(t, h.base) && forall u :: Covers(t, u) <==> Covers(h.chunks, u)
    ensures h.free == t
  {
    assert forall u :: !LiveHas(h.live, u);
    Unique(h.free, t, h.base);
  }

  /** Every block that is free or handed out lies within one chunk. */
  lemma InsideOneChunk(h: Heap, b: Block) returns (i: nat)
    requires h.Valid() && b.size > 0 && (b in h.live || b in h.free)
    ensures i < |h.chunks| && h.chunks[i].addr <= b.addr && b.End() <= h.chunks[i].End()
  {
    forall u | b.Has(u)
      ensures Covers(h.chunks, u)
    {
      assert b in h.live ==> LiveHas(h.live, u);
      assert b in h.free ==> Covers(h.free, u);
    }
    i := InOneChunk(h.chunks, b);
  }

  lemma StartUnits(live: set<Block>, chunks: seq<Block>, base: nat)
    requires Partition([], live, chunks) && live == {}
    ensures Partition([Block(base, 0)], live, chunks)
  {
    forall u
      ensures !Covers([Block(base, 0)], u) && !Covers([], u)
    {
    }
  }

  lemma CarvePrepared(s: seq<Block>, live: set<Block>, chunks: seq<Block>, base: nat, nextPage: nat,
                      ptr: map<nat, nat>, size: map<nat, nat>, i: nat, n: nat)
    requires IsFreeList(s, base) && Linked(s, ptr, size) && LiveSized(live, size)
    requires Partition(s, live, chunks) && ChunksApart(chunks, base, nextPage)
    requires i < |s| && 0 < n <= s[i].size
    ensures
      var b, t, p := Tail(s[i], n), CutOff(s, i, n), s[i].addr;
      && |s| > 1 && b !in live
      && Taken(s, b, t, base) && IsFreeList(t, base) && Partition(t, live + {b}, chunks)
      && p in ptr && p in size && size[p] == s[i].size
      && (base > 0 ==> s[Before(i, |s|)].addr > 0)
      && (if size[p] == n
          then Linked(t, ptr[s[Before(i, |s|)].addr := ptr[p]], size) && LiveSized(live + {b}, size) && b.addr == p
          else var size' := size[p := size[p] - n][b.addr := n];
               Linked(t, ptr, size') && LiveSized(live + {b}, size') && b.addr == p + (size[p] - n))
  {
    hide Apart, Partition, ChunksApart, Taken, Covers, Distinct;
    var b, p := Tail(s[i], n), s[i].addr;
    CutOffTakes(s, i, n, base);
    Grant(s, live, chunks, base, b, CutOff(s, i, n));
    FreePositive(s, live, chunks, base, nextPage, Before(i, |s|));
    DistinctAddrs(s);
    NotAlone(s, base, i);
    assert LinkAt(s, ptr, i);
    if size[p] == n {
      UnlinkLinked(s, i, ptr, size);
      CutHeaders(s, live, chunks, base, i, n, size, size);
    } else {
      SplitLinked(s, i, n, base, ptr, size);
      CutHeaders(s, live, chunks, base, i, n, size, size[p := size[p] - n][b.addr := n]);
    }
  }

  /** Besides a block with units there is always the base node. */
  lemma NotAlone(s: seq<Block>, base: nat, i: nat)
    requires IsFreeList(s, base) && i < |s| && s[i].size > 0
    ensures |s| > 1
  {
    var j :| 0 <= j < |s| && s[j] == Block(base, 0);
  }

  lemma CutRover(s: seq<Block>, i: nat, n: nat)
    requires |s| > 1 && i < |s| && 0 < n <= s[i].size
    ensures |CutOff(s, i, n)| == if s[i].size == n then |s| - 1 else |s|
    ensures s[i].size == n ==> CutOff(s, i, n)[if i == 0 then |s| - 2 else i - 1].addr == s[Before(i, |s|)].addr
    ensures s[i].size != n ==> CutOff(s, i, n)[Before(i, |s|)].addr == s[Before(i, |s|)].addr
  {
  }

  /** A new header changes no field of the free list or of a live block. */
  lemma FreshHeader(free: seq<Block>, live: set<Block>, chunks: seq<Block>, base: nat, hp: nat,
                    ptr: map<nat, nat>, size: map<nat, nat>, nu: nat)
    requires Partition(free, live, chunks) && ChunksApart(chunks, base, hp) && Canon(free, base) && base != hp
    requires Linked(free, ptr, size) && LiveSized(live, size)
    ensures Linked(free, ptr, size[hp := nu]) && LiveSized(live, size[hp := nu])
  {
    forall j | 0 <= j < |free|
      ensures free[j].addr != hp
    {
      assert free[j].size > 0 ==> free[j].Has(free[j].addr) && Covers(free, free[j].addr);
    }
    forall b | b in live
      ensures b.addr != hp
    {
      assert b.Has(b.addr) && LiveHas(live, b.addr) && Covers(chunks, b.addr);
    }
  }
}
