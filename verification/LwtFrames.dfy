/** What a call changes in the thread that makes it, and leaves alone in others. */
module LwtFrames {
  import opened Options
  import opened Queues
  import opened Lwt
  import opened LwtShape
  import opened LwtCalls
  import opened LwtFifo

  /** The thread's place in a call is as before, if it was not resumed. */
  ghost predicate Stays(x: Tcb, y: Tcb) {
    && y.chl == x.chl && y.cont == x.cont && y.nowRcving == x.nowRcving
    && (y.state == ZOMBIES <==> x.state == ZOMBIES)
    && (y.state == BLOCKED ==> x.state == BLOCKED)
  }

  /** y is x, now blocked in the call rest. */
  ghost predicate Blocks(x: Tcb, y: Tcb, rest: Cont) {
    y.chl == x.chl && y.cont == rest && y.state == BLOCKED &&
      y.nowRcving == if Receiving(rest).Some? then Receiving(rest) else x.nowRcving
  }

  ghost predicate AllStay(s: State, s': State) {
    s'.current == s.current && |s'.threads| == |s.threads| &&
      forall u :: 0 <= u < |s.threads| ==> Stays(s.threads[u], s'.threads[u])
  }

  ghost predicate OthersStay(s: State, s': State) {
    && s'.current == s.current && |s'.threads| == |s.threads|
    && forall u :: 0 <= u < |s.threads| && u != s.current ==> Stays(s.threads[u], s'.threads[u])
  }

  lemma SignalStays(s: State, c: Cid)
    requires Inv(s) && c < |s.chans|
    ensures AllStay(s, Signal(s, c).s) && forall e :: e in Signal(s, c).ev ==> e.Rewoken?
  {
    hide Placed, ThreadOk, GroupOk, Contents, MoveBeforeLast;
    var g := s.chans[c].cgroup;
    if g.Some? && s.groups[g.value].blocked {
      OwnerApart(s, g.value, c);
      var owner := s.groups[g.value].owner;
      assert ThreadOk(s, owner);
      assert s.threads[owner].state != ZOMBIES by { NotZombie(s, owner); }
    }
  }

  lemma NotZombie(s: State, t: Tid)
    requires Shape(s) && t < |s.threads| && s.threads[t].cont != Idle
    ensures s.threads[t].state != ZOMBIES
  {
    assert ThreadOk(s, t);
  }

  lemma SndStays(s: State, c: Cid, v: Value, rest: Cont)
    requires Inv(s) && c < |s.chans| && s.Cur().cont == Idle && Sending(rest) == Some(c)
    ensures
      var o := SndBody(s, c, v, rest);
      if o.schedules then OthersStay(s, o.s) && Blocks(s.Cur(), o.s.Cur(), rest) else AllStay(s, o.s)
  {
    hide Placed, ThreadOk, GroupOk, Contents, Signal, MoveBeforeLast, MoveToEnd, Unlink, TcbRefs;
    SignalStays(s, c);
    SignalKin(s, c);
  }

  lemma RcvStays(s: State, c: Cid, rest: Cont)
    requires Inv(s) && c < |s.chans| && s.Cur().cont == Idle && Receiving(rest) == Some(c)
    ensures
      var o := RcvBody(s, c, rest);
      if o.schedules then OthersStay(s, o.s) && Blocks(s.Cur(), o.s.Cur(), rest) else AllStay(s, o.s)
  {
    hide ThreadOk, GroupOk, Contents, MoveBeforeLast, MoveToEnd, Unlink, TcbRefs, Put, First;
    if s.rings[Senders(c)] != [] {
      assert s.rings[Senders(c)][0] in s.rings[Senders(c)];
    }
  }

  lemma YieldStays(s: State, to: Option<Tid>)
    requires s.current < |s.threads| && RUN < |s.rings| && (to.Some? ==> to.value < |s.threads|)
    ensures AllStay(s, YieldBody(s, to).s)
  {
  }

  lemma ScheduleStays(s: State, u: Tid)
    requires Shape(s) && CanSchedule(s) && u < |s.threads|
    ensures Stays(s.threads[u], Schedule(s).threads[u])
  {
    assert s.rings[RUN][0] in s.rings[RUN];
  }

  /** What a call other than lwt_create does to the thread that makes it. */
  ghost predicate CurrentTurns(s: State, call: Call, x: Tcb, y: Tcb)
    requires call.Join? ==> call.child < |s.threads|
  {
    match call
    case Snd(c, _) => Stays(x, y) || Blocks(x, y, SndReturn(c))
    case Rcv(c) => Stays(x, y) || Blocks(x, y, RcvReturn(c))
    case Join(child) => Stays(x, y) || Blocks(x, y, JoinReturn(child, s.threads[child].chl))
    case Wait(g) => Stays(x, y) || Blocks(x, y, GroupWait(g))
    case Die(_) =>
      || Blocks(x, y, DieSnd(x.chl))
      || (y.chl == x.chl && y.cont == Idle && y.state == ZOMBIES && y.nowRcving == x.nowRcving)
    case Continue =>
      || (x.cont.GroupWait? && Blocks(x, y, x.cont))
      || (y.chl == x.chl && y.cont == Idle && (y.state == ZOMBIES <==> x.cont.DieSnd?) && y.nowRcving == x.nowRcving)
    case _ => Stays(x, y)
  }

  lemma DieStays(s: State, v: Value)
    requires Inv(s) && s.Cur().cont == Idle
    ensures OthersStay(s, DieBody(s, v).s) && CurrentTurns(s, Die(v), s.Cur(), DieBody(s, v).s.Cur())
  {
    hide Placed, ThreadOk, GroupOk, OwnerOk, Contents, SndBody, TcbRefs;
    var c := s.Cur().chl;
    DieBodyRefs(s);
    DieStarts(s, v, c);
    var s1 := WithMessage(s.(zombieCounter := s.zombieCounter + 1), s.current, v);
    SndStays(s1, c, v, DieSnd(c));
    SndKin(s1, c, v, DieSnd(c));
  }

  lemma JoinStays(s: State, child: Tid)
    requires Inv(s) && child < |s.threads| && s.Cur().cont == Idle
    ensures OthersStay(s, JoinBody(s, child).s) && CurrentTurns(s, Join(child), s.Cur(), JoinBody(s, child).s.Cur())
  {
    hide Placed, ThreadOk, GroupOk, OwnerOk, Contents, RcvBody, YieldBody, TcbRefs;
    var c := s.threads[child].chl;
    ChlRefs(s, child);
    RcvStays(s, c, JoinReturn(child, c));
    RcvKin(s, c, JoinReturn(child, c));
    var o := RcvBody(s, c, JoinReturn(child, c));
    if s.threads[child].parent == Some(s.current) && !s.threads[child].nojoin && !o.schedules {
      YieldStays(o.s, Some(child));
    }
  }

  lemma WaitStays(s: State, g: Gid)
    requires Inv(s) && g < |s.groups|
    ensures OthersStay(s, WaitBody(s, g).s)
    ensures
      var x, y := s.Cur(), WaitBody(s, g).s.Cur();
      || Blocks(x, y, GroupWait(g))
      || (y.chl == x.chl && y.cont == Idle && y.state == RUNNING && y.nowRcving == x.nowRcving)
  {
    hide Placed, ThreadOk, GroupOk, OwnerOk, Contents, FirstReady, Unlink;
  }

  lemma ContinueStays(s: State)
    requires Inv(s) && s.Cur().cont != Idle
    ensures OthersStay(s, ContinueBody(s).s) && CurrentTurns(s, Continue, s.Cur(), ContinueBody(s).s.Cur())
  {
    hide Placed, ThreadOk, GroupOk, OwnerOk, Contents, WaitBody, YieldBody;
    var x := s.Cur();
    assert TcbRefs(s, x);
    if x.cont.GroupWait? {
      WaitStays(s, x.cont.g);
    } else if x.cont.JoinReturn? {
      YieldStays(s.(threads := s.threads[s.current := x.(cont := Idle)]), Some(x.cont.child));
    }
  }

  lemma BodyThreads(s: State, call: Call)
    requires Inv(s) && Enabled(s, call) && !call.Create?
    ensures OthersStay(s, Body(s, call).s) && CurrentTurns(s, call, s.Cur(), Body(s, call).s.Cur())
  {
    hide Placed, ThreadOk, GroupOk, OwnerOk, Contents, TcbRefs;
    hide SndBody, RcvBody, DieBody, JoinBody, WaitBody, YieldBody, ContinueBody;
    match call {
      case Yield(to) => YieldStays(s, to);
      case Snd(c, v) => SndStays(s, c, v, SndReturn(c));
      case Rcv(c) => RcvStays(s, c, RcvReturn(c));
      case Die(v) => DieStays(s, v);
      case Join(child) => JoinStays(s, child);
      case Wait(g) => if s.groups[g].members != [] { WaitStays(s, g); }
      case Continue => ContinueStays(s);
      case _ =>
    }
  }

  lemma YieldSays(s: State, to: Option<Tid>)
    requires s.current < |s.threads| && RUN < |s.rings| && (to.Some? ==> to.value < |s.threads|)
    ensures YieldBody(s, to).ev == []
  {
  }

  lemma CreateSays(s: State, nojoin: bool)
    requires Refs(s)
    ensures CreateBody(s, nojoin).ev == []
  {
  }

  lemma CreateTurns(s: State, nojoin: bool)
    requires Inv(s)
    ensures
      var s', t := CreateBody(s, nojoin).s, Created(s);
      && (t < |s.threads| ==> s.threads[t].state == ZOMBIES && s.threads[t].cont == Idle)
      && t < |s'.threads|
      && s'.threads[t].nowRcving == (if t < |s.threads| then s.threads[t].nowRcving else None)
  {
    if s.rings[RECYCLE] != [] {
      assert s.rings[RECYCLE][0] in s.rings[RECYCLE];
      assert ThreadOk(s, s.rings[RECYCLE][0]);
    }
  }

  /** A join returns NULL, or what it received, or blocks. */
  lemma JoinEvents(s: State, child: Tid)
    requires Refs(s) && child < |s.threads|
    ensures
      var ev, c := JoinBody(s, child).ev, s.threads[child].chl;
      ev == [] || ev == [Failed] || exists w :: ev == [Returned(c, w), Joined(child, c, w)]
  {
    hide RcvBody, YieldBody, TcbRefs;
    var c := s.threads[child].chl;
    ChlRefs(s, child);
    RcvEvents(s, c, JoinReturn(child, c));
    var o, ev := RcvBody(s, c, JoinReturn(child, c)), JoinBody(s, child).ev;
    if |ev| == 2 {
      assert ev == [Returned(c, o.ev[0].v), Joined(child, c, o.ev[0].v)];
    }
  }
}
