/** How thread structures are used again: in the order in which their threads died. */
module LwtRecycle {
  import opened Options
  import opened Lwt
  import opened LwtShape
  import opened LwtCalls
  import opened LwtFifo
  import opened LwtFrames

  // ----- who has died -----

  function ExitedBy(e: Event): seq<Tid> { if e.Exited? then [e.t] else [] }

  /** The threads that have entered the recycle queue, in order. */
  function ExitOrder(log: seq<Event>): seq<Tid> {
    if log == [] then [] else ExitedBy(log[0]) + ExitOrder(log[1..])
  }

  lemma {:induction false} ExitOrderConcat(a: seq<Event>, b: seq<Event>)
    ensures ExitOrder(a + b) == ExitOrder(a) + ExitOrder(b)
  {
    hide ExitedBy;
    if a == [] {
      assert a + b == b;
    } else {
      ExitOrderConcat(a[1..], b);
      assert (a + b)[0] == a[0] && (a + b)[1..] == a[1..] + b;
      Associates(ExitedBy(a[0]), ExitOrder(a[1..]), ExitOrder(b));
    }
  }

  lemma {:induction false} NobodyExits(ev: seq<Event>)
    requires forall e :: e in ev ==> !e.Exited?
    ensures ExitOrder(ev) == []
  {
    if ev != [] {
      assert ev[0] in ev && forall e :: e in ev[1..] ==> e in ev;
      NobodyExits(ev[1..]);
    }
  }

  // ----- one call -----

  /** The recycle queue grows at its end by those who died, and otherwise stays. */
  ghost predicate Recycles(s: State, o: Outcome) {
    |s.rings| == |s.chans| + 2 && |o.s.rings| == |s.rings| &&
      o.s.rings[RECYCLE] == s.rings[RECYCLE] + ExitOrder(o.ev)
  }

  lemma SameQueue(s: State, o: Outcome)
    requires |s.rings| == |s.chans| + 2 && |o.s.rings| == |s.rings| && o.s.rings[RECYCLE] == s.rings[RECYCLE]
    requires forall e :: e in o.ev ==> !e.Exited?
    ensures Recycles(s, o)
  {
    NobodyExits(o.ev);
    assert s.rings[RECYCLE] + [] == s.rings[RECYCLE];
  }

  lemma NotRecycled(s: State, t: Tid)
    requires Shape(s) && t < |s.threads| && s.threads[t].state != ZOMBIES
    ensures t !in s.rings[RECYCLE]
  {
  }

  lemma ResumeKeeps(s: State, t: Tid)
    requires t < |s.threads| && RECYCLE < |s.rings| && t !in s.rings[RECYCLE]
    ensures |Resume(s, t).rings| == |s.rings| && Resume(s, t).rings[RECYCLE] == s.rings[RECYCLE]
  {
  }

  lemma BlockKeeps(s: State, why: BlockFor, c: Cid, rest: Cont)
    requires s.current < |s.threads| && Senders(c) < |s.rings| && s.current !in s.rings[RECYCLE]
    ensures |Block(s, why, c, rest).rings| == |s.rings| && Block(s, why, c, rest).rings[RECYCLE] == s.rings[RECYCLE]
  {
  }

  lemma SignalKeeps(s: State, c: Cid)
    requires Inv(s) && c < |s.chans|
    ensures |Signal(s, c).s.rings| == |s.rings| && Signal(s, c).s.rings[RECYCLE] == s.rings[RECYCLE]
    ensures forall e :: e in Signal(s, c).ev ==> !e.Exited?
  {
    hide Placed, ThreadOk, GroupOk, OwnerOk, Contents, TcbRefs, Resume;
    var g := s.chans[c].cgroup;
    if g.Some? && s.groups[g.value].blocked {
      var owner := s.groups[g.value].owner;
      OwnerApart(s, g.value, c);
      NotZombie(s, owner);
      NotRecycled(s, owner);
      ResumeKeeps(WithChan(s, c, s.chans[c].(ready := true)), owner);
    }
  }

  lemma SndKeeps(s: State, c: Cid, v: Value, rest: Cont)
    requires Inv(s) && c < |s.chans|
    ensures
      var o := SndBody(s, c, v, rest);
      |o.s.rings| == |s.rings| && o.s.rings[RECYCLE] == s.rings[RECYCLE] && forall e :: e in o.ev ==> !e.Exited?
  {
    hide Placed, ThreadOk, GroupOk, OwnerOk, Contents, TcbRefs, Resume, Signal, Block, Put;
    SignalKeeps(s, c);
    SignalKin(s, c);
    NotRecycled(s, s.current);
    var ch := s.chans[c];
    if ch.receiver.Some? {
      var r := ch.receiver.value;
      if WaitsFor(s.threads[r], c) {
        NotRecycled(s, r);
        ResumeKeeps(WithMessage(s, r, v), r);
      } else if ch.tail - ch.head == ch.Size() {
        BlockKeeps(WithMessage(Signal(s, c).s, s.current, v), SENDING, c, rest);
      }
    }
  }

  lemma RcvKeeps(s: State, c: Cid, rest: Cont)
    requires Inv(s) && c < |s.chans|
    ensures
      var o := RcvBody(s, c, rest);
      |o.s.rings| == |s.rings| && o.s.rings[RECYCLE] == s.rings[RECYCLE] && forall e :: e in o.ev ==> !e.Exited?
  {
    hide ThreadOk, GroupOk, OwnerOk, Contents, TcbRefs, Resume, Block, Put, First;
    NotRecycled(s, s.current);
    if s.rings[Senders(c)] != [] {
      var t := s.rings[Senders(c)][0];
      assert t in s.rings[Senders(c)];
      ResumeKeeps(s, t);
    } else {
      BlockKeeps(s.(threads := s.threads[s.current := s.Cur().(nowRcving := Some(c))]), RECEIVING, c, rest);
    }
  }

  lemma YieldKeeps(s: State, to: Option<Tid>)
    requires Shape(s) && (to.Some? ==> to.value < |s.threads|)
    ensures
      var o := YieldBody(s, to);
      |o.s.rings| == |s.rings| && o.s.rings[RECYCLE] == s.rings[RECYCLE] && o.ev == []
  {
    hide ThreadOk, GroupOk, OwnerOk, TcbRefs;
  }

  lemma WaitKeeps(s: State, g: Gid)
    requires Inv(s) && g < |s.groups|
    ensures
      var o := WaitBody(s, g);
      |o.s.rings| == |s.rings| && o.s.rings[RECYCLE] == s.rings[RECYCLE] && forall e :: e in o.ev ==> !e.Exited?
  {
    hide Placed, ThreadOk, GroupOk, OwnerOk, Contents, TcbRefs, FirstReady;
    NotRecycled(s, s.current);
  }

  lemma ExitRecycles(s: State)
    requires s.current < |s.threads| && |s.rings| == |s.chans| + 2 && s.current !in s.rings[RECYCLE]
    ensures |ExitBody(s).s.rings| == |s.rings| && ExitBody(s).s.rings[RECYCLE] == s.rings[RECYCLE] + [s.current]
    ensures ExitOrder(ExitBody(s).ev) == [s.current]
    ensures Recycles(s, ExitBody(s))
  {
    assert ExitBody(s).ev[1..] == [];
  }

  lemma DieRecycles(s: State, v: Value)
    requires Inv(s) && s.Cur().cont == Idle
    ensures Recycles(s, DieBody(s, v))
  {
    hide Placed, ThreadOk, GroupOk, OwnerOk, Contents, TcbRefs, SndBody, ExitBody;
    var c := s.Cur().chl;
    DieBodyRefs(s);
    DieStarts(s, v, c);
    NotRecycled(s, s.current);
    var s1 := WithMessage(s.(zombieCounter := s.zombieCounter + 1), s.current, v);
    SndKeeps(s1, c, v, DieSnd(c));
    SndKin(s1, c, v, DieSnd(c));
    var o := SndBody(s1, c, v, DieSnd(c));
    var ev := [Died(s.current, c, v)] + o.ev;
    NobodyExits(ev);
    if o.schedules {
      SameQueue(s, DieBody(s, v));
    } else {
      ExitRecycles(o.s);
      ExitOrderConcat(ev, ExitBody(o.s).ev);
      assert [] + [s.current] == [s.current];
    }
  }

  lemma JoinKeeps(s: State, child: Tid)
    requires Inv(s) && Kin(s) && child < |s.threads| && s.Cur().cont == Idle
    ensures Recycles(s, JoinBody(s, child))
  {
    hide Placed, ThreadOk, GroupOk, OwnerOk, Contents, TcbRefs, RcvBody, YieldBody, Recycles;
    var c := s.threads[child].chl;
    ChlRefs(s, child);
    RcvKeeps(s, c, JoinReturn(child, c));
    RcvKin(s, c, JoinReturn(child, c));
    RcvEvents(s, c, JoinReturn(child, c));
    var o := RcvBody(s, c, JoinReturn(child, c));
    if s.threads[child].parent == Some(s.current) && !s.threads[child].nojoin && !o.schedules {
      RcvGood(s, c, JoinReturn(child, c));
      YieldKeeps(o.s, Some(child));
    }
    SameQueue(s, JoinBody(s, child));
  }

  lemma ContinueRecycles(s: State)
    requires Inv(s)
    ensures Recycles(s, ContinueBody(s))
  {
    hide Placed, ThreadOk, GroupOk, OwnerOk, Contents, TcbRefs, WaitBody, YieldBody, ExitBody, Recycles;
    ContRefs(s, s.current);
    NotRecycled(s, s.current);
    var x := s.Cur();
    if x.cont.DieSnd? {
      ExitRecycles(s);
    } else if x.cont.GroupWait? {
      WaitKeeps(s, x.cont.g);
      SameQueue(s, ContinueBody(s));
    } else if x.cont.JoinReturn? {
      IdleShape(s);
      YieldKeeps(s.(threads := s.threads[s.current := x.(cont := Idle)]), Some(x.cont.child));
      SameQueue(s, ContinueBody(s));
    } else {
      SameQueue(s, ContinueBody(s));
    }
  }

  /** What lwt_create takes from the recycle queue. */
  function Reuse(s: State, call: Call): seq<Tid>
    requires RECYCLE < |s.rings|
  {
    if call.Create? && s.rings[RECYCLE] != [] then [s.rings[RECYCLE][0]] else []
  }

  /** lwt_create takes the first recycled structure, and only if there is none a new one. */
  lemma CreateReuses(s: State, nojoin: bool)
    requires Inv(s)
    ensures
      var s' := CreateBody(s, nojoin).s;
      && |s'.rings| > RECYCLE && Reuse(s, Create(nojoin)) + s'.rings[RECYCLE] == s.rings[RECYCLE]
      && |s'.threads| == |s.threads| + (if s.rings[RECYCLE] == [] then 1 else 0)
      && s'.rings[RUN] == s.rings[RUN] + [Created(s)]
      && CreateBody(s, nojoin).ev == [] && !CreateBody(s, nojoin).schedules
  {
    hide ThreadOk, GroupOk, OwnerOk, Contents, TcbRefs;
    var queue := s.rings[RECYCLE];
    assert queue != [] ==> queue[0] in queue;
    assert Created(s) !in s.rings[RUN];
    assert queue != [] ==> [queue[0]] + queue[1..] == queue;
    assert queue == [] ==> [] + queue == queue && Created(s) !in queue;
  }

  /** Any other call. */
  lemma BodyRecycles(s: State, call: Call)
    requires Inv(s) && Kin(s) && Enabled(s, call) && !call.Create? && !call.MakeChan?
    ensures Recycles(s, Body(s, call))
  {
    hide Placed, ThreadOk, GroupOk, OwnerOk, Contents, TcbRefs, Recycles;
    hide SndBody, RcvBody, DieBody, JoinBody, YieldBody, WaitBody, ContinueBody;
    if call.Die? {
      DieRecycles(s, call.v);
    } else if call.Join? {
      JoinKeeps(s, call.child);
    } else if call.Continue? {
      ContinueRecycles(s);
    } else {
      if call.Yield? {
        YieldKeeps(s, call.to);
      } else if call.Snd? {
        SndKeeps(s, call.c, call.v, SndReturn(call.c));
      } else if call.Rcv? {
        RcvKeeps(s, call.c, RcvReturn(call.c));
      } else if call.Wait? && s.groups[call.g].members != [] {
        WaitKeeps(s, call.g);
      }
      SameQueue(s, Body(s, call));
    }
  }

  // ----- runs -----

  lemma StepRecycles(s: State, call: Call)
    requires Inv(s) && Kin(s) && Enabled(s, call)
    ensures |s.rings| > RECYCLE && |Exec(s, call).rings| > RECYCLE
    ensures s.rings[RECYCLE] + ExitOrder(Body(s, call).ev) == Reuse(s, call) + Exec(s, call).rings[RECYCLE]
  {
    hide Placed, ThreadOk, GroupOk, OwnerOk, Contents, TcbRefs, CreateBody, Permitted;
    if call.Create? {
      CreateReuses(s, call.nojoin);
      assert s.rings[RECYCLE] + [] == s.rings[RECYCLE];
    } else if call.MakeChan? {
      assert Exec(s, call).rings[RECYCLE] == s.rings[RECYCLE];
    } else {
      hide Body;
      BodyRecycles(s, call);
    }
  }

  /** The structures that the first i calls took from the recycle queue, in order. */
  ghost function Reused(worlds: seq<World>, calls: seq<Call>, i: nat): seq<Tid>
    requires Run(worlds, calls) && i <= |calls|
  {
    if i == 0 then []
    else
      assert Enabled(worlds[i - 1].s, calls[i - 1]);
      Reused(worlds, calls, i - 1) + Reuse(worlds[i - 1].s, calls[i - 1])
  }

  /** In every state of every run: those who have died, in the order in which they did,
      are those whose structures were used again, in the order in which they were,
      followed by the recycle queue.  So the k-th structure used again is that of the
      k-th thread to die, and none is lost or used twice. */
  lemma {:induction false} ReusedInOrder(worlds: seq<World>, calls: seq<Call>, i: nat)
    requires Run(worlds, calls) && i <= |calls|
    ensures |worlds[i].s.rings| > RECYCLE
    ensures ExitOrder(worlds[i].log) == Reused(worlds, calls, i) + worlds[i].s.rings[RECYCLE]
  {
    hide Inv, Kin, CanSchedule, Body, Permitted, Refs, CallRefs, Exec, Reuse, ExitOrder;
    if i == 0 {
      StartsEmpty();
    } else {
      hide Start;
      var w, call := worlds[i - 1], calls[i - 1];
      ReusedInOrder(worlds, calls, i - 1);
      RunInv(worlds, calls, i - 1);
      assert worlds[i] == Next(w, call);
      StepRecycles(w.s, call);
      ExitOrderConcat(w.log, Body(w.s, call).ev);
      Regroup(Reused(worlds, calls, i - 1), w.s.rings[RECYCLE], ExitOrder(Body(w.s, call).ev),
              Reuse(w.s, call), worlds[i].s.rings[RECYCLE]);
    }
  }

  lemma StartsEmpty()
    ensures |Start().rings| > RECYCLE && Start().rings[RECYCLE] == [] && ExitOrder([]) == []
  {
  }

  lemma Regroup(a: seq<Tid>, q: seq<Tid>, e: seq<Tid>, r: seq<Tid>, q': seq<Tid>)
    requires q + e == r + q'
    ensures (a + q) + e == (a + r) + q'
  {
    Associates(a, q, e);
    Associates(a, r, q');
  }
}
