/** Every call keeps the invariant of LwtShape. */
module LwtCalls {
  import opened Options
  import opened Queues
  import opened Lwt
  import opened LwtShape

  /** What a call must leave: the invariant, but for the current thread's state when
      the switch is still to come. */
  ghost predicate Good(o: Outcome) {
    Shape(o.s) && Contents(o.s) && (o.schedules || o.s.Cur().state == RUNNING)
  }

  /** Contents, leaving out channel c, on which nobody waits. */
  ghost predicate Calm(s: State, c: Cid)
    requires Refs(s)
  {
    && (forall d :: 0 <= d < |s.chans| && d != c ==> ChanOk(s.chans[d], s.rings[Senders(d)]))
    && (forall t, d :: 0 <= t < |s.threads| && 0 <= d < |s.chans| && Waiting(s, t, d) ==> d != c && !s.chans[d].ready)
  }

  lemma NobodyWaits(s: State, c: Cid)
    requires Shape(s) && Contents(s) && c < |s.chans|
    requires s.chans[c].ready || s.chans[c].receiver == None || !WaitsFor(s.threads[s.chans[c].receiver.value], c)
    ensures Calm(s, c)
  {
    forall t | 0 <= t < |s.threads|
      ensures !Waiting(s, t, c)
    {
      assert ThreadOk(s, t);
    }
  }

  lemma MessageGood(s: State, t: Tid, v: Value)
    requires Shape(s) && t < |s.threads|
    ensures Shape(WithMessage(s, t, v))
    ensures Contents(s) ==> Contents(WithMessage(s, t, v))
    ensures forall c :: 0 <= c < |s.chans| && Calm(s, c) ==> Calm(WithMessage(s, t, v), c)
  {
    var x, s' := s.threads[t].(message := v), WithMessage(s, t, v);
    assert ThreadOk(s, t);
    ThreadChanged(s, t, x, s');
    assert forall u, d :: 0 <= u < |s.threads| && 0 <= d < |s.chans| && Waiting(s', u, d) ==> Waiting(s, u, d);
  }

  /** Resuming a thread that is in no sender queue. */
  lemma ResumeGood(s: State, t: Tid)
    requires Shape(s) && t < |s.threads| && forall c :: 0 <= c < |s.chans| ==> Home(s.threads[t]) != Senders(c)
    ensures Shape(Resume(s, t))
    ensures forall c :: 0 <= c < |s.chans| ==> Resume(s, t).rings[Senders(c)] == s.rings[Senders(c)]
    ensures Contents(s) ==> Contents(Resume(s, t))
    ensures forall c :: 0 <= c < |s.chans| && Calm(s, c) ==> Calm(Resume(s, t), c)
  {
    ResumeShape(s, t);
    var s' := Resume(s, t);
    assert forall c :: 0 <= c < |s.chans| ==> s'.rings[Senders(c)] == Without(s.rings[Senders(c)], t);
    assert forall u, d :: 0 <= u < |s.threads| && 0 <= d < |s.chans| && Waiting(s', u, d) ==> Waiting(s, u, d);
  }

  /** Resuming the first sender of channel c. */
  lemma ResumeSender(s: State, c: Cid)
    requires Shape(s) && c < |s.chans| && s.rings[Senders(c)] != [] && Calm(s, c)
    ensures
      var t := s.rings[Senders(c)][0];
      && t < |s.threads| && Home(s.threads[t]) == Senders(c)
      && Shape(Resume(s, t)) && Calm(Resume(s, t), c)
      && Resume(s, t).rings[Senders(c)] == s.rings[Senders(c)][1..]
  {
    var t := s.rings[Senders(c)][0];
    assert t in s.rings[Senders(c)];
    ResumeShape(s, t);
    var s' := Resume(s, t);
    forall d | 0 <= d < |s.chans| && d != c
      ensures s'.rings[Senders(d)] == s.rings[Senders(d)]
    {
      assert t !in s.rings[Senders(d)];
    }
    assert forall u, d :: 0 <= u < |s.threads| && 0 <= d < |s.chans| && Waiting(s', u, d) ==> Waiting(s, u, d);
  }

  // ----- lwt_snd -----

  lemma SignalGood(s: State, c: Cid)
    requires Inv(s) && c < |s.chans| && Calm(s, c)
    ensures
      var o := Signal(s, c);
      && Shape(o.s) && Calm(o.s, c) && o.s.current == s.current
      && o.s.rings[Senders(c)] == s.rings[Senders(c)]
      && o.s.chans == s.chans[c := s.chans[c].(ready := true)]
      && (s.Cur().cont.GroupWait? || o.s.Cur() == s.Cur())
      && o.s.groups == s.groups
  {
    var s1 := WithChan(s, c, s.chans[c].(ready := true));
    ChanChanged(s, c, s.chans[c].(ready := true));
    assert forall u, d :: 0 <= u < |s.threads| && 0 <= d < |s.chans| && Waiting(s1, u, d) ==> Waiting(s, u, d);
    assert Calm(s1, c);
    var g := s.chans[c].cgroup;
    if g.Some? && s.groups[g.value].blocked {
      var owner := s.groups[g.value].owner;
      assert OwnerOk(s.groups, owner, s.threads[owner]);
      ResumeGood(s1, owner);
    }
  }

  lemma SndGood(s: State, c: Cid, v: Value, rest: Cont)
    requires Inv(s) && c < |s.chans| && Sending(rest) == Some(c) && ContOk(s, rest) && s.Cur().cont == Idle
    ensures Good(SndBody(s, c, v, rest))
  {
    hide Placed, ThreadOk, OwnerOk, GroupOk, TcbRefs, Calm, Signal, MoveBeforeLast, Put, Block;
    var ch := s.chans[c];
    if ch.receiver != None {
      var r := ch.receiver.value;
      if WaitsFor(s.threads[r], c) {
        MessageGood(s, r, v);
        ResumeGood(WithMessage(s, r, v), r);
      } else {
        NobodyWaits(s, c);
        SignalGood(s, c);
        var o := Signal(s, c);
        assert ChanOk(ch, s.rings[Senders(c)]);
        if ch.tail - ch.head != ch.Size() {
          SndPuts(o.s, c, v);
        } else {
          SndBlocks(o.s, c, v, rest);
        }
      }
    }
  }

  lemma SndPuts(s: State, c: Cid, v: Value)
    requires Shape(s) && c < |s.chans| && Calm(s, c) && s.chans[c].ready
    requires s.chans[c].tail - s.chans[c].head < s.chans[c].Size() && s.rings[Senders(c)] == []
    ensures
      var s' := WithChan(s, c, Put(s.chans[c], v));
      Shape(s') && Contents(s')
  {
    var s' := WithChan(s, c, Put(s.chans[c], v));
    ChanChanged(s, c, Put(s.chans[c], v));
    assert forall u, d :: 0 <= u < |s.threads| && 0 <= d < |s.chans| && Waiting(s', u, d) ==> Waiting(s, u, d);
  }

  lemma SndBlocks(s: State, c: Cid, v: Value, rest: Cont)
    requires Shape(s) && c < |s.chans| && Calm(s, c) && s.chans[c].ready
    requires s.chans[c].tail - s.chans[c].head == s.chans[c].Size()
    requires Sending(rest) == Some(c) && ContOk(s, rest) && s.Cur().cont == Idle && s.Cur().state == RUNNING
    ensures
      var s' := Block(WithMessage(s, s.current, v), SENDING, c, rest);
      Shape(s') && Contents(s')
  {
    hide Placed, ThreadOk, GroupOk, TcbRefs;
    var s1 := WithMessage(s, s.current, v);
    MessageGood(s, s.current, v);
    assert OwnerOk(s1.groups, s.current, s1.Cur());
    BlockShape(s1, SENDING, c, rest);
    var s' := Block(s1, SENDING, c, rest);
    BlockRings(s1, c, rest);
    assert forall u, d :: 0 <= u < |s.threads| && 0 <= d < |s.chans| && Waiting(s', u, d) ==> Waiting(s1, u, d);
  }

  /** Blocking to send: the running thread is appended to that queue only. */
  lemma BlockRings(s: State, c: Cid, rest: Cont)
    requires Shape(s) && c < |s.chans| && s.Cur().state == RUNNING
    ensures
      var s' := Block(s, SENDING, c, rest);
      && s'.rings[Senders(c)] == s.rings[Senders(c)] + [s.current]
      && forall d :: 0 <= d < |s.chans| && d != c ==> s'.rings[Senders(d)] == s.rings[Senders(d)]
  {
    assert forall d :: 0 <= d < |s.chans| ==> s.current !in s.rings[Senders(d)];
  }

  // ----- lwt_rcv -----

  lemma RcvGood(s: State, c: Cid, rest: Cont)
    requires Inv(s) && c < |s.chans| && s.chans[c].receiver == Some(s.current)
    requires Receiving(rest) == Some(c) && ContOk(s, rest) && s.Cur().cont == Idle
    ensures Good(RcvBody(s, c, rest))
  {
    var ch, queue := s.chans[c], s.rings[Senders(c)];
    assert ChanOk(ch, queue);
    if ch.ready {
      NobodyWaits(s, c);
      if queue != [] {
        ResumeSender(s, c);
      }
      RcvTakes(s, c, rest);
    } else {
      RcvBlocks(s, c, rest);
    }
  }

  lemma RcvTakes(s: State, c: Cid, rest: Cont)
    requires Inv(s) && c < |s.chans| && s.chans[c].ready && Calm(s, c)
    requires s.rings[Senders(c)] != [] ==>
      var t := s.rings[Senders(c)][0];
      && t < |s.threads| && t != s.current && Shape(Resume(s, t)) && Calm(Resume(s, t), c)
      && Resume(s, t).rings[Senders(c)] == s.rings[Senders(c)][1..]
    ensures Good(RcvBody(s, c, rest))
  {
    hide Placed, ThreadOk, OwnerOk, GroupOk, TcbRefs, MoveBeforeLast, First, Block;
    var o := RcvBody(s, c, rest);
    var queue := s.rings[Senders(c)];
    assert queue != [] ==> queue[0] in s.rings[Senders(c)];
    assert ChanOk(s.chans[c], queue);
    var s1 := if queue != [] then Resume(s, queue[0]) else s;
    assert o.s == WithChan(s1, c, o.s.chans[c]);
    ChanChanged(s1, c, o.s.chans[c]);
    assert forall u, d :: 0 <= u < |s.threads| && 0 <= d < |s.chans| && Waiting(o.s, u, d) ==> Waiting(s1, u, d);
    assert ChanOk(o.s.chans[c], o.s.rings[Senders(c)]);
  }

  lemma NowRcving(s: State, c: Cid)
    requires Shape(s) && s.Cur().state == RUNNING && s.Cur().cont == Idle
    ensures Shape(s.(threads := s.threads[s.current := s.Cur().(nowRcving := Some(c))]))
  {
    var t, x := s.current, s.Cur().(nowRcving := Some(c));
    assert ThreadOk(s, t) && OwnerOk(s.groups, t, s.Cur());
    ThreadChanged(s, t, x, s.(threads := s.threads[t := x]));
  }

  lemma RunningUnqueued(s: State)
    requires Shape(s) && s.Cur().state == RUNNING
    ensures forall d :: 0 <= d < |s.chans| ==> s.current !in s.rings[Senders(d)]
  {
  }

  lemma RcvBlocks(s: State, c: Cid, rest: Cont)
    requires Inv(s) && c < |s.chans| && s.chans[c].receiver == Some(s.current) && !s.chans[c].ready
    requires Receiving(rest) == Some(c) && ContOk(s, rest) && s.Cur().cont == Idle
    ensures Good(RcvBody(s, c, rest))
  {
    hide Placed, ThreadOk, GroupOk, TcbRefs, Put, First, Resume;
    var t, x := s.current, s.Cur().(nowRcving := Some(c));
    var s1 := s.(threads := s.threads[t := x]);
    NowRcving(s, c);
    assert OwnerOk(s.groups, t, s.Cur());
    BlockShape(s1, RECEIVING, c, rest);
    var s' := Block(s1, RECEIVING, c, rest);
    RunningUnqueued(s);
    assert ChanOk(s.chans[c], s.rings[Senders(c)]);
    assert forall u, d :: 0 <= u < |s.threads| && 0 <= d < |s.chans| && Waiting(s', u, d) && u != t ==>
      Waiting(s, u, d);
  }

  // ----- threads -----

  /** Reordering within the run queue. */
  lemma YieldGood(s: State, to: Option<Tid>)
    requires Shape(s) && Contents(s) && (to.Some? ==> to.value < |s.threads|)
    requires s.Cur().state == RUNNING
    ensures Good(YieldBody(s, to))
  {
    var o := YieldBody(s, to);
    if o.schedules {
      var t := if to.Some? then to.value else s.current;
      assert ThreadOk(s, t) && OwnerOk(s.groups, t, s.threads[t]);
      if to.Some? {
        MovedBeforeLast(s.threads, s.rings, t, s.threads[t]);
      } else {
        MovedToEnd(s.threads, s.rings, t, s.threads[t]);
      }
      assert o.s.threads == s.threads[t := s.threads[t]];
      ThreadChanged(s, t, s.threads[t], o.s);
      assert forall d :: 0 <= d < |s.chans| ==> t !in s.rings[Senders(d)];
      assert forall u, d :: 0 <= u < |s.threads| && 0 <= d < |s.chans| && Waiting(o.s, u, d) ==> Waiting(s, u, d);
    }
  }

  lemma NewChanRefs(s: State, size: nat, private: bool)
    requires Refs(s)
    ensures Refs(NewChan(s, size, private))
  {
    var s' := NewChan(s, size, private);
    assert forall u :: 0 <= u < |s.threads| ==> TcbRefs(s, s.threads[u]) && TcbRefs(s', s'.threads[u]);
    assert forall d :: 0 <= d < |s.chans| ==> ChanRefs(s, s.chans[d]) && ChanRefs(s', s'.chans[d]);
  }

  lemma NewChanThread(s: State, size: nat, private: bool, u: Tid)
    requires Refs(s) && Refs(NewChan(s, size, private)) && u < |s.threads| && ThreadOk(s, u)
    ensures ThreadOk(NewChan(s, size, private), u)
  {
    hide ChanRefs;
    assert TcbRefs(s, s.threads[u]);
  }

  lemma NewChanPlaced(s: State, size: nat, private: bool)
    requires Refs(s) && Placed(s.threads, s.rings)
    ensures Placed(s.threads, NewChan(s, size, private).rings)
  {
    assert forall u :: 0 <= u < |s.threads| ==> TcbRefs(s, s.threads[u]);
  }

  lemma NewChanGood(s: State, size: nat, private: bool)
    requires Shape(s) && Contents(s)
    ensures Shape(NewChan(s, size, private)) && Contents(NewChan(s, size, private))
  {
    hide ThreadOk, OwnerOk, Placed, TcbRefs, ChanRefs;
    var s' := NewChan(s, size, private);
    NewChanRefs(s, size, private);
    NewChanPlaced(s, size, private);
    forall u | 0 <= u < |s.threads|
      ensures ThreadOk(s', u)
    {
      NewChanThread(s, size, private, u);
    }
    forall g | 0 <= g < |s.groups|
      ensures GroupOk(s', g)
    {
      assert GroupOk(s, g);
    }
    forall u, d | 0 <= u < |s.threads| && 0 <= d < |s'.chans| && Waiting(s', u, d)
      ensures d < |s.chans| && Waiting(s, u, d)
    {
      ContRefs(s, u);
    }
  }

  /** A fresh thread structure, queued nowhere yet. */
  lemma FreshThread(s: State, x: Tcb, s': State)
    requires Shape(s) && Contents(s) && TcbRefs(s, x) && x.cont == Idle && Queued(x)
    requires s'.threads == s.threads + [x] && s'.chans == s.chans && s'.groups == s.groups && s'.current == s.current
    requires s'.rings == MoveToEnd(s.rings, |s.threads|, RUN)
    ensures Shape(s') && Contents(s')
  {
    hide ThreadOk, OwnerOk, TcbRefs, ChanRefs, GroupOk;
    var t := |s.threads|;
    FreshPlaced(s, x, s');
    FreshRefs(s, x, s');
    forall u | 0 <= u < |s'.threads|
      ensures ThreadOk(s', u) && OwnerOk(s'.groups, u, s'.threads[u])
    {
      FreshOk(s, x, s', u);
    }
    forall g | 0 <= g < |s.groups|
      ensures GroupOk(s', g)
    {
      assert GroupOk(s', g) by {
        SameGroup(s, s', g);
      }
    }
    assert forall u, d :: 0 <= u < |s'.threads| && 0 <= d < |s.chans| && Waiting(s', u, d) ==>
      u < t && Waiting(s, u, d);
  }

  lemma SameGroup(s: State, s': State, g: Gid)
    requires Refs(s) && Refs(s') && s'.chans == s.chans && s'.groups == s.groups && g < |s.groups| && GroupOk(s, g)
    ensures GroupOk(s', g)
  {
  }

  lemma FreshPlaced(s: State, x: Tcb, s': State)
    requires Shape(s) && Queued(x) && s'.threads == s.threads + [x] && s'.rings == MoveToEnd(s.rings, |s.threads|, RUN)
    ensures Placed(s'.threads, s'.rings) && s'.rings == s.rings[RUN := s.rings[RUN] + [|s.threads|]]
  {
    hide ThreadOk, OwnerOk, GroupOk, TcbRefs, ChanRefs;
    var t := |s.threads|;
    assert forall r :: 0 <= r < |s.rings| ==> t !in s.rings[r];
    LastInserts(s.rings[RUN], t);
    InsertedMembers(s.rings[RUN], t, s.rings[RUN] + [t]);
    assert s'.rings == s.rings[RUN := s.rings[RUN] + [t]];
  }

  lemma FreshRefs(s: State, x: Tcb, s': State)
    requires Refs(s) && TcbRefs(s, x) && Placed(s'.threads, s'.rings) && |s'.rings| == |s.rings|
    requires s'.threads == s.threads + [x] && s'.chans == s.chans && s'.groups == s.groups && s'.current == s.current
    ensures Refs(s')
  {
    PlacedRefs(s');
    assert forall u :: 0 <= u < |s.threads| ==> TcbRefs(s, s.threads[u]) && TcbRefs(s', s'.threads[u]);
    assert forall d :: 0 <= d < |s.chans| ==> ChanRefs(s, s.chans[d]) && ChanRefs(s', s'.chans[d]);
  }

  lemma FreshOk(s: State, x: Tcb, s': State, u: Tid)
    requires Shape(s) && Refs(s') && x.cont == Idle && Queued(x) && u < |s'.threads|
    requires s'.threads == s.threads + [x] && s'.chans == s.chans && s'.groups == s.groups
    ensures ThreadOk(s', u) && OwnerOk(s'.groups, u, s'.threads[u])
  {
    hide Placed, GroupOk, ChanRefs;
    if u < |s.threads| {
      assert ThreadOk(s, u);
    }
  }

  /** A recycled thread structure starts a new life at the end of the run queue. */
  lemma RecycledThread(s: State, t: Tid, x: Tcb, s': State)
    requires Shape(s) && Contents(s) && t < |s.threads| && s.threads[t].state == ZOMBIES
    requires TcbRefs(s, x) && x.cont == Idle && Queued(x)
    requires s'.threads == s.threads[t := x] && s'.chans == s.chans && s'.groups == s.groups && s'.current == s.current
    requires s'.rings == MoveToEnd(s.rings, t, RUN)
    ensures Shape(s') && Contents(s')
  {
    assert ThreadOk(s, t) && OwnerOk(s.groups, t, s.threads[t]);
    MovedToEnd(s.threads, s.rings, t, x);
    ThreadChanged(s, t, x, s');
    assert forall d :: 0 <= d < |s.chans| ==> t !in s.rings[Senders(d)];
    assert forall u, d :: 0 <= u < |s.threads| && 0 <= d < |s.chans| && Waiting(s', u, d) ==> Waiting(s, u, d);
  }

  lemma CreateGood(s: State, nojoin: bool)
    requires Inv(s)
    ensures Good(CreateBody(s, nojoin))
  {
    var o, s1 := CreateBody(s, nojoin), NewChan(s, 0, true);
    NewChanGood(s, 0, true);
    if s.rings[RECYCLE] != [] {
      var t := s.rings[RECYCLE][0];
      assert t in s.rings[RECYCLE];
      RecycledThread(s1, t, o.s.threads[t], o.s);
    } else {
      FreshThread(s1, o.s.threads[|s.threads|], o.s);
    }
  }

  /** The buffer, the flag and the memberships stay. */
  lemma CountGood(s: State, c: Cid, ch: Chan)
    requires Inv(s) && c < |s.chans|
    requires ch == s.chans[c].(receiver := ch.receiver, sndCnt := ch.sndCnt, freed := ch.freed)
    requires ch.receiver == s.chans[c].receiver ||
             (ch.receiver == None && forall t :: 0 <= t < |s.threads| ==> Receiving(s.threads[t].cont) != Some(c))
    ensures Shape(WithChan(s, c, ch)) && Contents(WithChan(s, c, ch))
  {
    hide Placed, ThreadOk, GroupOk, OwnerOk, TcbRefs;
    assert ChanRefs(s, s.chans[c]);
    ChanChanged(s, c, ch);
    var s' := WithChan(s, c, ch);
    assert forall u, d :: 0 <= u < |s.threads| && 0 <= d < |s.chans| && Waiting(s', u, d) ==> Waiting(s, u, d);
  }

  lemma DerefGood(s: State, c: Cid)
    requires Inv(s) && c < |s.chans| && s.Cur().cont == Idle
    ensures Good(DerefBody(s, c))
  {
    hide Placed, GroupOk, OwnerOk, TcbRefs, Contents;
    if s.chans[c].receiver == Some(s.current) {
      forall t | 0 <= t < |s.threads|
        ensures Receiving(s.threads[t].cont) != Some(c)
      {
        assert ThreadOk(s, t);
      }
    }
    CountGood(s, c, DerefBody(s, c).s.chans[c]);
  }

  lemma ShareGood(s: State, c: Cid)
    requires Inv(s) && c < |s.chans|
    ensures Good(ShareBody(s, c))
  {
    hide Placed, GroupOk, OwnerOk, TcbRefs, Contents, ThreadOk;
    CountGood(s, c, ShareBody(s, c).s.chans[c]);
  }

  lemma ExitGood(s: State)
    requires Shape(s) && Contents(s) && Queued(s.Cur()) && (s.Cur().cont == Idle || s.Cur().cont.DieSnd?)
    ensures Good(ExitBody(s))
  {
    var t, x, s' := s.current, s.Cur().(state := ZOMBIES, cont := Idle), ExitBody(s).s;
    assert ThreadOk(s, t) && OwnerOk(s.groups, t, s.threads[t]);
    MovedToEnd(s.threads, s.rings, t, x);
    ThreadChanged(s, t, x, s');
    assert forall d :: 0 <= d < |s.chans| ==> t !in s.rings[Senders(d)];
    assert forall u, d :: 0 <= u < |s.threads| && 0 <= d < |s.chans| && Waiting(s', u, d) ==> Waiting(s, u, d);
  }

  /** Counters are free to change. */
  lemma CountersFree(s: State, s': State)
    requires Shape(s) && Contents(s)
    requires s'.threads == s.threads && s'.chans == s.chans && s'.groups == s.groups && s'.rings == s.rings &&
      s'.current == s.current
    ensures Shape(s') && Contents(s')
  {
    assert ThreadOk(s, s.current) && s.threads == s.threads[s.current := s.Cur()];
    ThreadChanged(s, s.current, s.Cur(), s');
    assert forall u, d :: 0 <= u < |s.threads| && 0 <= d < |s.chans| && Waiting(s', u, d) ==> Waiting(s, u, d);
  }

  lemma DieGood(s: State, v: Value)
    requires Inv(s) && s.Cur().cont == Idle
    ensures Good(DieBody(s, v))
  {
    var c := s.Cur().chl;
    assert TcbRefs(s, s.Cur());
    var s0 := s.(zombieCounter := s.zombieCounter + 1);
    CountersFree(s, s0);
    MessageGood(s0, s.current, v);
    var s1 := WithMessage(s0, s.current, v);
    var o := SndBody(s1, c, v, DieSnd(c));
    SndGood(s1, c, v, DieSnd(c));
    if !o.schedules {
      SndKeepsCurrent(s1, c, v, DieSnd(c));
      ExitGood(o.s);
    }
  }

  /** A send that does not block leaves the sender running in its own call. */
  lemma SndKeepsCurrent(s: State, c: Cid, v: Value, rest: Cont)
    requires Inv(s) && c < |s.chans| && s.Cur().cont == Idle
    ensures
      var o := SndBody(s, c, v, rest);
      o.s.current == s.current && (!o.schedules ==> o.s.Cur() == s.Cur())
  {
    var g := s.chans[c].cgroup;
    if g.Some? {
      var owner := s.groups[g.value].owner;
      assert OwnerOk(s.groups, owner, s.threads[owner]);
    }
  }

  lemma JoinGood(s: State, child: Tid)
    requires Inv(s) && child < |s.threads| && s.Cur().cont == Idle
    requires s.threads[child].parent == Some(s.current) ==> s.chans[s.threads[child].chl].receiver == Some(s.current)
    ensures Good(JoinBody(s, child))
  {
    var x := s.threads[child];
    assert TcbRefs(s, x);
    if x.parent == Some(s.current) && !x.nojoin {
      var rest := JoinReturn(child, x.chl);
      var o := RcvBody(s, x.chl, rest);
      RcvGood(s, x.chl, rest);
      if !o.schedules {
        YieldGood(o.s, Some(child));
      }
    }
  }

  // ----- groups -----

  lemma GroupRefs(s: State, g: Gid, grp: Group, c: Cid, ch: Chan, s': State)
    requires Refs(s) && g < |s.groups| && c < |s.chans|
    requires s' == WithChan(WithGroup(s, g, grp), c, ch) && grp.owner == s.groups[g].owner
    requires ch == s.chans[c].(cgroup := ch.cgroup) && (ch.cgroup == None || ch.cgroup == Some(g))
    requires forall d :: d in grp.members ==> d in s.groups[g].members || d == c
    ensures Refs(s')
  {
    assert forall u :: 0 <= u < |s.threads| ==> TcbRefs(s, s.threads[u]) && TcbRefs(s', s'.threads[u]);
    assert forall d :: 0 <= d < |s.chans| ==> ChanRefs(s, s.chans[d]) && ChanRefs(s', s'.chans[d]);
  }

  lemma GroupThreads(s: State, g: Gid, grp: Group, c: Cid, ch: Chan, s': State, u: Tid)
    requires Shape(s) && g < |s.groups| && c < |s.chans| && u < |s.threads| && Refs(s')
    requires s' == WithChan(WithGroup(s, g, grp), c, ch) && grp.owner == s.groups[g].owner &&
      grp.blocked == s.groups[g].blocked
    requires ch == s.chans[c].(cgroup := ch.cgroup)
    ensures ThreadOk(s', u) && OwnerOk(s'.groups, u, s'.threads[u])
  {
    hide Placed, GroupOk, ChanRefs;
    assert ThreadOk(s, u) && OwnerOk(s.groups, u, s.threads[u]);
  }

  /** A group and the membership of one channel change. */
  lemma GroupChanged(s: State, g: Gid, grp: Group, c: Cid, ch: Chan, s': State)
    requires Shape(s) && Contents(s) && g < |s.groups| && c < |s.chans|
    requires s' == WithChan(WithGroup(s, g, grp), c, ch) && grp.owner == s.groups[g].owner &&
      grp.blocked == s.groups[g].blocked
    requires ch == s.chans[c].(cgroup := ch.cgroup) && !ch.private
    requires NoDup(grp.members)
    requires (s.chans[c].cgroup == None && ch.cgroup == Some(g)) || (s.chans[c].cgroup == Some(g) && ch.cgroup == None)
    requires forall d :: d in grp.members <==> (d in s.groups[g].members && d != c) || (d == c && ch.cgroup == Some(g))
    ensures Shape(s') && Contents(s')
  {
    hide Placed, ThreadOk, OwnerOk, TcbRefs, ChanRefs;
    GroupRefs(s, g, grp, c, ch, s');
    forall h | 0 <= h < |s.groups|
      ensures GroupOk(s', h)
    {
      assert GroupOk(s, h);
    }
    forall u | 0 <= u < |s.threads|
      ensures ThreadOk(s', u) && OwnerOk(s'.groups, u, s'.threads[u])
    {
      GroupThreads(s, g, grp, c, ch, s', u);
    }
    assert forall u, d :: 0 <= u < |s.threads| && 0 <= d < |s.chans| && Waiting(s', u, d) ==> Waiting(s, u, d);
  }

  lemma GroupAddGood(s: State, g: Gid, c: Cid)
    requires Inv(s) && g < |s.groups| && c < |s.chans| && !s.chans[c].private
    ensures Good(GroupAddBody(s, g, c))
  {
    if s.chans[c].cgroup == None {
      var grp, o := s.groups[g], GroupAddBody(s, g, c);
      assert GroupOk(s, g);
      BeforeLastInserts(grp.members, c);
      InsertedMembers(grp.members, c, BeforeLast(grp.members, c));
      GroupChanged(s, g, o.s.groups[g], c, o.s.chans[c], o.s);
    }
  }

  lemma GroupRemGood(s: State, g: Gid, c: Cid)
    requires Inv(s) && g < |s.groups| && c < |s.chans|
    ensures Good(GroupRemBody(s, g, c))
  {
    if !s.chans[c].ready && s.chans[c].cgroup == Some(g) {
      var grp, o := s.groups[g], GroupRemBody(s, g, c);
      assert GroupOk(s, g);
      WithoutMembers(grp.members, c);
      GroupChanged(s, g, o.s.groups[g], c, o.s.chans[c], o.s);
    }
  }

  lemma NewGroupGood(s: State)
    requires Inv(s)
    ensures Good(NewGroupBody(s))
  {
    var s' := NewGroupBody(s).s;
    assert forall u :: 0 <= u < |s.threads| ==> TcbRefs(s, s.threads[u]) && TcbRefs(s', s'.threads[u]);
    assert forall d :: 0 <= d < |s.chans| ==> ChanRefs(s, s.chans[d]) && ChanRefs(s', s'.chans[d]);
    assert Refs(s');
    forall h | 0 <= h < |s'.groups|
      ensures GroupOk(s', h)
    {
      if h < |s.groups| { assert GroupOk(s, h); }
    }
    forall u | 0 <= u < |s.threads|
      ensures ThreadOk(s', u) && OwnerOk(s'.groups, u, s'.threads[u])
    {
      assert ThreadOk(s, u) && OwnerOk(s.groups, u, s.threads[u]);
    }
    assert forall u, d :: 0 <= u < |s.threads| && 0 <= d < |s.chans| && Waiting(s', u, d) ==> Waiting(s, u, d);
  }

  lemma WaitGood(s: State, g: Gid)
    requires Inv(s) && g < |s.groups| && s.groups[g].owner == s.current
    requires s.Cur().cont == Idle || s.Cur().cont == GroupWait(g)
    ensures Good(WaitBody(s, g))
  {
    var t, o := s.current, WaitBody(s, g);
    var x := o.s.threads[t];
    assert ThreadOk(s, t) && OwnerOk(s.groups, t, s.Cur());
    if o.schedules {
      MovedNowhere(s.threads, s.rings, t, x);
    } else {
      assert s.rings == o.s.rings && Home(x) == Home(s.Cur());
    }
    WaitChanged(s, t, x, g, o.s);
  }

  /** The owner's place in its wait and the group's mark change together. */
  ghost predicate WaitChange(s: State, t: Tid, x: Tcb, g: Gid, s': State) {
    && t < |s.threads| && g < |s.groups| && s.groups[g].owner == t == s.current
    && s'.threads == s.threads[t := x] && s'.chans == s.chans && s'.current == s.current
    && |s'.groups| == |s.groups| && s'.groups == s.groups[g := s'.groups[g]]
    && s'.groups[g] == s.groups[g].(blocked := s'.groups[g].blocked)
    && (s'.rings == s.rings || s'.rings == Unlink(s.rings, t))
    && (if s'.groups[g].blocked then x == s.Cur().(state := BLOCKED, blockFor := RECEIVING, cont := GroupWait(g))
        else x == s.Cur().(cont := Idle))
    && (s.Cur().cont == Idle || s.Cur().cont == GroupWait(g))
  }

  lemma WaitRefs(s: State, t: Tid, x: Tcb, g: Gid, s': State)
    requires Refs(s) && WaitChange(s, t, x, g, s') && Placed(s'.threads, s'.rings)
    ensures Refs(s')
  {
    PlacedRefs(s');
    assert forall u :: 0 <= u < |s.threads| ==> TcbRefs(s, s.threads[u]);
    assert forall u :: 0 <= u < |s.threads| ==> TcbRefs(s', s'.threads[u]);
    assert forall d :: 0 <= d < |s.chans| ==> ChanRefs(s, s.chans[d]) && ChanRefs(s', s'.chans[d]);
  }

  lemma WaitThreads(s: State, t: Tid, x: Tcb, g: Gid, s': State, u: Tid)
    requires Inv(s) && WaitChange(s, t, x, g, s') && Refs(s') && u < |s.threads|
    ensures ThreadOk(s', u) && OwnerOk(s'.groups, u, s'.threads[u])
  {
    hide Placed, Contents, GroupOk, ChanRefs;
    assert ThreadOk(s, u) && OwnerOk(s.groups, u, s.threads[u]);
  }

  lemma WaitChanged(s: State, t: Tid, x: Tcb, g: Gid, s': State)
    requires Inv(s) && WaitChange(s, t, x, g, s') && Placed(s'.threads, s'.rings)
    ensures Shape(s') && Contents(s')
  {
    hide ThreadOk, OwnerOk, TcbRefs, ChanRefs;
    WaitRefs(s, t, x, g, s');
    forall h | 0 <= h < |s.groups|
      ensures GroupOk(s', h)
    {
      assert GroupOk(s, h);
    }
    forall u | 0 <= u < |s.threads|
      ensures ThreadOk(s', u) && OwnerOk(s'.groups, u, s'.threads[u])
    {
      WaitThreads(s, t, x, g, s', u);
    }
    assert forall d :: 0 <= d < |s.chans| ==> t !in s.rings[Senders(d)];
    assert forall u, d :: 0 <= u < |s.threads| && 0 <= d < |s.chans| && Waiting(s', u, d) ==> Waiting(s, u, d);
  }

  // ----- the rest of a blocked call -----

  lemma ContinueGood(s: State)
    requires Inv(s) && s.Cur().cont != Idle
    ensures Good(ContinueBody(s))
  {
    var t, x := s.current, s.Cur();
    assert TcbRefs(s, x) && ThreadOk(s, t) && OwnerOk(s.groups, t, x);
    if x.cont.DieSnd? {
      ExitGood(s);
    } else if x.cont.GroupWait? {
      WaitGood(s, x.cont.g);
    } else {
      var idle := s.(threads := s.threads[t := x.(cont := Idle)]);
      assert Placed(idle.threads, idle.rings);
      ThreadChanged(s, t, x.(cont := Idle), idle);
      assert forall u, d :: 0 <= u < |s.threads| && 0 <= d < |s.chans| && Waiting(idle, u, d) ==> Waiting(s, u, d);
      if x.cont.JoinReturn? {
        YieldGood(idle, Some(x.cont.child));
      }
    }
  }

  // ----- all calls, all runs -----

  /** Private channels belong to one thread each, and their receiver is its parent. */
  ghost predicate Kin(s: State)
    requires Refs(s)
  {
    && (forall t :: 0 <= t < |s.threads| ==>
          && s.chans[s.threads[t].chl].private
          && (s.threads[t].parent.Some? ==> s.chans[s.threads[t].chl].receiver == s.threads[t].parent))
    && (forall t, u :: 0 <= t < |s.threads| && 0 <= u < |s.threads| && t != u ==> s.threads[t].chl != s.threads[u].chl)
  }

  /** Nobody's parent, channel or nojoin mark changes, nor any buffer's size, nor who receives from a
      private channel; a channel without receiver does not get one, and one that is
      freed has none and stays freed. */
  ghost predicate SameKin(s: State, s': State) {
    ThreadsKin(s.threads, s'.threads) && ChansKin(s.chans, s'.chans)
  }

  ghost predicate ThreadsKin(ts: seq<Tcb>, ts': seq<Tcb>) {
    && |ts'| == |ts|
    && forall t :: 0 <= t < |ts| ==>
         ts'[t].chl == ts[t].chl && ts'[t].parent == ts[t].parent && ts'[t].nojoin == ts[t].nojoin
  }

  ghost predicate ChansKin(cs: seq<Chan>, cs': seq<Chan>) {
    && |cs'| == |cs|
    && forall c :: 0 <= c < |cs| ==> ChanKin(cs[c], cs'[c])
  }

  ghost predicate ChanKin(ch: Chan, ch': Chan) {
    && ch'.private == ch.private && ch'.Size() == ch.Size()
    && (ch.private || ch.receiver == None ==> ch'.receiver == ch.receiver)
    && (ch.freed ==> ch'.freed) && (ch'.freed && !ch.freed ==> ch'.receiver == None)
  }

  /** Nor does anybody let go of a channel or come to share it. */
  ghost predicate Firm(s: State, s': State) {
    SameKin(s, s') && forall c :: 0 <= c < |s.chans| ==> SameHold(s.chans[c], s'.chans[c])
  }

  ghost predicate SameHold(ch: Chan, ch': Chan) {
    ch'.receiver == ch.receiver && ch'.sndCnt == ch.sndCnt && ch'.freed == ch.freed
  }

  /** Besides, the current thread is the same, and there are as many rings. */
  ghost predicate Steady(s: State, s': State) {
    Firm(s, s') && s'.current == s.current && |s'.rings| == |s.rings|
  }

  lemma SteadyTwice(s: State, s1: State, s2: State)
    requires Steady(s, s1) && Steady(s1, s2)
    ensures Steady(s, s2)
  {
  }

  lemma ThreadSteady(s: State, t: Tid, x: Tcb, s': State)
    requires t < |s.threads| && s'.threads == s.threads[t := x] && s'.chans == s.chans
    requires x.chl == s.threads[t].chl && x.parent == s.threads[t].parent && x.nojoin == s.threads[t].nojoin
    requires s'.current == s.current && |s'.rings| == |s.rings|
    ensures Steady(s, s')
  {
  }

  lemma ChanSteady(s: State, c: Cid, ch: Chan, s': State)
    requires c < |s.chans| && s'.chans == s.chans[c := ch] && s'.threads == s.threads
    requires ChanKin(s.chans[c], ch) && SameHold(s.chans[c], ch)
    requires s'.current == s.current && |s'.rings| == |s.rings|
    ensures Steady(s, s')
  {
  }

  lemma ResumeKin(s: State, t: Tid)
    requires t < |s.threads| && RUN < |s.rings|
    ensures Steady(s, Resume(s, t)) && Resume(s, t).chans == s.chans && |Resume(s, t).threads| == |s.threads|
  {
    hide Steady;
    ThreadSteady(s, t, Resume(s, t).threads[t], Resume(s, t));
  }

  lemma BlockKin(s: State, why: BlockFor, c: Cid, rest: Cont)
    requires s.current < |s.threads| && (why == SENDING ==> Senders(c) < |s.rings|)
    ensures Steady(s, Block(s, why, c, rest)) && Block(s, why, c, rest).chans == s.chans
  {
    hide Steady;
    var s' := Block(s, why, c, rest);
    ThreadSteady(s, s.current, s'.threads[s.current], s');
  }

  lemma SignalKin(s: State, c: Cid)
    requires Refs(s) && c < |s.chans|
    ensures Steady(s, Signal(s, c).s)
    ensures Signal(s, c).s.chans == s.chans[c := s.chans[c].(ready := true)]
  {
    hide Steady, Resume, TcbRefs;
    var s1, g := WithChan(s, c, s.chans[c].(ready := true)), s.chans[c].cgroup;
    ChanSteady(s, c, s1.chans[c], s1);
    if g.Some? && s.groups[g.value].blocked {
      ResumeKin(s1, s.groups[g.value].owner);
      SteadyTwice(s, s1, Signal(s, c).s);
    }
  }

  lemma PutKin(ch: Chan, v: Value)
    requires ch.Size() > 0
    ensures ChanKin(ch, Put(ch, v)) && SameHold(ch, Put(ch, v))
  {
  }

  lemma SndKin(s: State, c: Cid, v: Value, rest: Cont)
    requires Refs(s) && c < |s.chans|
    ensures
      var s' := SndBody(s, c, v, rest).s;
      Firm(s, s') && s'.current == s.current && |s'.rings| == |s.rings|
  {
    assert Steady(s, SndBody(s, c, v, rest).s) by { SndSteady(s, c, v, rest); }
  }

  lemma SndSteady(s: State, c: Cid, v: Value, rest: Cont)
    requires Refs(s) && c < |s.chans|
    ensures Steady(s, SndBody(s, c, v, rest).s)
  {
    hide Firm, Signal, Resume, Block, Put, ChanKin, SameHold, TcbRefs;
    SignalKin(s, c);
    var ch, o := s.chans[c], Signal(s, c);
    if ch.receiver == None {
      Unchanged(s);
    } else if WaitsFor(s.threads[ch.receiver.value], c) {
      var r := ch.receiver.value;
      var s1 := WithMessage(s, r, v);
      ThreadSteady(s, r, s1.threads[r], s1);
      ResumeKin(s1, r);
      SteadyTwice(s, s1, Resume(s1, r));
    } else if ch.tail - ch.head != ch.Size() {
      PutKin(o.s.chans[c], v);
      ChanSteady(o.s, c, Put(o.s.chans[c], v), WithChan(o.s, c, Put(o.s.chans[c], v)));
      SteadyTwice(s, o.s, SndBody(s, c, v, rest).s);
    } else {
      SizesSteady(s, o.s);
      var s1 := WithMessage(o.s, s.current, v);
      ThreadSteady(o.s, s.current, s1.threads[s.current], s1);
      SteadyTwice(s, o.s, s1);
      BlockKin(s1, SENDING, c, rest);
      SteadyTwice(s, s1, Block(s1, SENDING, c, rest));
    }
  }

  lemma Unchanged(s: State)
    ensures Steady(s, s)
  {
  }

  lemma SizesSteady(s: State, s': State)
    requires Steady(s, s')
    ensures |s'.threads| == |s.threads| && |s'.chans| == |s.chans|
  {
  }

  lemma RcvKin(s: State, c: Cid, rest: Cont)
    requires Refs(s) && c < |s.chans|
    ensures
      var s' := RcvBody(s, c, rest).s;
      Firm(s, s') && s'.current == s.current && |s'.rings| == |s.rings|
  {
    assert Steady(s, RcvBody(s, c, rest).s) by { RcvSteady(s, c, rest); }
  }

  lemma RcvSteady(s: State, c: Cid, rest: Cont)
    requires Refs(s) && c < |s.chans|
    ensures Steady(s, RcvBody(s, c, rest).s)
  {
    hide Firm, Resume, Block, Put, First, TcbRefs;
    var ch, queue, s' := s.chans[c], s.rings[Senders(c)], RcvBody(s, c, rest).s;
    if queue != [] {
      assert queue[0] in s.rings[Senders(c)];
      ResumeKin(s, queue[0]);
      if ch.tail - ch.head != 0 {
        PutKin(ch.(head := ch.head + 1), s.threads[queue[0]].message);
      }
      ChanSteady(Resume(s, queue[0]), c, s'.chans[c], s');
      SteadyTwice(s, Resume(s, queue[0]), s');
    } else if ch.tail - ch.head != 0 {
      ChanSteady(s, c, s'.chans[c], s');
    } else {
      var s1 := s.(threads := s.threads[s.current := s.Cur().(nowRcving := Some(c))]);
      ThreadSteady(s, s.current, s1.threads[s.current], s1);
      BlockKin(s1, RECEIVING, c, rest);
      SteadyTwice(s, s1, s');
    }
  }

  lemma ChlRefs(s: State, t: Tid)
    requires Refs(s) && t < |s.threads|
    ensures s.threads[t].chl < |s.chans|
  {
    assert TcbRefs(s, s.threads[t]);
  }

  lemma ContRefs(s: State, t: Tid)
    requires Refs(s) && t < |s.threads|
    ensures ContOk(s, s.threads[t].cont)
  {
    assert TcbRefs(s, s.threads[t]);
  }

  /** lwt_rcv either returns one message of the channel or blocks. */
  lemma RcvEvents(s: State, c: Cid, rest: Cont)
    requires Refs(s) && c < |s.chans|
    ensures
      var o := RcvBody(s, c, rest);
      if o.schedules then o.ev == [] else |o.ev| == 1 && o.ev[0].Returned? && o.ev[0].c == c
  {
  }

  lemma YieldKin(s: State, to: Option<Tid>)
    requires s.current < |s.threads| && RUN < |s.rings| && (to.Some? ==> to.value < |s.threads|)
    ensures YieldBody(s, to).s.threads == s.threads && YieldBody(s, to).s.chans == s.chans
  {
  }

  lemma ExitKin(s: State)
    requires s.current < |s.threads| && RECYCLE < |s.rings|
    ensures Firm(s, ExitBody(s).s)
  {
    hide Firm;
    ThreadSteady(s, s.current, ExitBody(s).s.threads[s.current], ExitBody(s).s);
  }

  lemma DieKin(s: State, v: Value)
    requires Refs(s)
    ensures Firm(s, DieBody(s, v).s)
  {
    hide SndBody, ExitBody, Refs;
    DieBodyRefs(s);
    var s1 := WithMessage(s.(zombieCounter := s.zombieCounter + 1), s.current, v);
    MessageRefs(s, s1);
    SndKin(s1, s.Cur().chl, v, DieSnd(s.Cur().chl));
    var o := SndBody(s1, s.Cur().chl, v, DieSnd(s.Cur().chl));
    ExitKin(o.s);
  }

  lemma DieBodyRefs(s: State)
    requires Refs(s)
    ensures s.current < |s.threads| && s.Cur().chl < |s.chans| && |s.rings| == |s.chans| + 2
  {
    assert TcbRefs(s, s.Cur());
  }

  lemma JoinKin(s: State, child: Tid)
    requires Refs(s) && child < |s.threads|
    ensures Firm(s, JoinBody(s, child).s)
  {
    hide RcvBody, YieldBody;
    var c := s.threads[child].chl;
    assert TcbRefs(s, s.threads[child]);
    RcvKin(s, c, JoinReturn(child, c));
    var o := RcvBody(s, c, JoinReturn(child, c));
    if s.threads[child].parent == Some(s.current) && !s.threads[child].nojoin && !o.schedules {
      YieldKin(o.s, Some(child));
    }
  }

  lemma WaitKin(s: State, g: Gid)
    requires Refs(s) && g < |s.groups|
    ensures Firm(s, WaitBody(s, g).s)
  {
    hide Firm, TcbRefs, FirstReady;
    ThreadSteady(s, s.current, WaitBody(s, g).s.threads[s.current], WaitBody(s, g).s);
  }

  lemma ContinueKin(s: State)
    requires Refs(s)
    ensures Firm(s, ContinueBody(s).s)
  {
    hide Firm, TcbRefs, YieldBody, WaitBody, ExitBody;
    ContRefs(s, s.current);
    var x := s.Cur();
    var idle := s.(threads := s.threads[s.current := x.(cont := Idle)]);
    ThreadSteady(s, s.current, x.(cont := Idle), idle);
    if x.cont.DieSnd? {
      ExitKin(s);
    } else if x.cont.GroupWait? {
      WaitKin(s, x.cont.g);
    } else if x.cont.JoinReturn? {
      YieldKin(idle, Some(x.cont.child));
      TablesKin(s, idle, ContinueBody(s).s);
    } else if x.cont == Idle {
      Unchanged(s);
    }
  }

  /** Only the tables of threads and channels matter. */
  lemma TablesKin(s: State, s1: State, s': State)
    requires Firm(s, s1) && s'.threads == s1.threads && s'.chans == s1.chans
    ensures Firm(s, s')
  {
  }

  lemma OneChanKin(s: State, c: Cid, ch: Chan, s': State)
    requires c < |s.chans| && s'.chans == s.chans[c := ch] && s'.threads == s.threads && ChanKin(s.chans[c], ch)
    ensures SameKin(s, s') && (SameHold(s.chans[c], ch) ==> Firm(s, s'))
  {
  }

  lemma BodyFirm(s: State, call: Call)
    requires Enabled(s, call) && !call.Create? && !call.MakeChan? && !call.Deref? && !call.Share?
    ensures Firm(s, Body(s, call).s)
  {
    hide SndBody, RcvBody, YieldBody, DieBody, JoinBody, ContinueBody, WaitBody, Firm, TcbRefs, CanSchedule;
    var s' := Body(s, call).s;
    Unchanged(s);
    if call.Yield? {
      YieldKin(s, call.to);
      TablesKin(s, s, s');
    } else if call.Snd? {
      SndKin(s, call.c, call.v, SndReturn(call.c));
    } else if call.Rcv? {
      RcvKin(s, call.c, RcvReturn(call.c));
    } else if call.Die? {
      DieKin(s, call.v);
    } else if call.Join? {
      JoinKin(s, call.child);
    } else if call.Continue? {
      ContinueKin(s);
    } else if call.Wait? {
      if s.groups[call.g].members != [] { WaitKin(s, call.g); }
    } else if call.GroupAdd? {
      if s.chans[call.c].cgroup == None { OneChanKin(s, call.c, s'.chans[call.c], s'); }
    } else if call.GroupRem? {
      if !s.chans[call.c].ready && s.chans[call.c].cgroup == Some(call.g) {
        OneChanKin(s, call.c, s'.chans[call.c], s');
      }
    } else {
      TablesKin(s, s, s');
    }
  }

  lemma BodyKin(s: State, call: Call)
    requires Enabled(s, call) && !call.Create? && !call.MakeChan?
    ensures SameKin(s, Body(s, call).s)
  {
    hide SndBody, RcvBody, YieldBody, DieBody, JoinBody, ContinueBody, WaitBody, SameKin, TcbRefs, CanSchedule;
    if call.Deref? || call.Share? {
      OneChanKin(s, call.c, Body(s, call).s.chans[call.c], Body(s, call).s);
    } else {
      BodyFirm(s, call);
    }
  }

  /** The thread that lwt_create starts. */
  function Created(s: State): Tid
    requires RECYCLE < |s.rings|
  {
    if s.rings[RECYCLE] != [] then s.rings[RECYCLE][0] else |s.threads|
  }

  lemma CreateFacts(s: State, nojoin: bool)
    requires Refs(s)
    ensures
      var s', t := CreateBody(s, nojoin).s, Created(s);
      && s'.chans == s.chans + [Chan.Chan(Some(s.current), [], 0, 0, false, None, true, 1, false)]
      && t < |s'.threads| && t <= |s.threads| && s'.current == s.current
      && s'.threads[t].chl == |s.chans| && s'.threads[t].parent == Some(s.current)
      && s'.threads[t].nojoin == nojoin
      && s'.threads[t].cont == Idle && s'.threads[t].state == RUNNING
      && (if t < |s.threads| then s'.threads == s.threads[t := s'.threads[t]]
          else s'.threads == s.threads + [s'.threads[t]])
  {
    assert s.rings[RECYCLE] != [] ==> Created(s) in s.rings[RECYCLE];
    assert seq(0, _ => 0) == [];
  }

  lemma CreateKin(s: State, nojoin: bool)
    requires Refs(s) && Kin(s) && Refs(CreateBody(s, nojoin).s)
    ensures Kin(CreateBody(s, nojoin).s)
  {
    hide CreateBody;
    CreateFacts(s, nojoin);
    assert forall t :: 0 <= t < |s.threads| ==> TcbRefs(s, s.threads[t]);
  }

  lemma BodyGood(s: State, call: Call)
    requires Inv(s) && Kin(s) && Enabled(s, call)
    ensures Good(Body(s, call))
  {
    hide SndBody, RcvBody, YieldBody, DieBody, JoinBody, ContinueBody, CreateBody, WaitBody, GroupAddBody;
    hide GroupRemBody, Good, Contents;
    match call {
      case Yield(to) => YieldGood(s, to);
      case Create(nojoin) => CreateGood(s, nojoin);
      case MakeChan(size) => NewChanGood(s, size, false); RefsStay(s, NewChan(s, size, false));
      case Snd(c, v) => SndGood(s, c, v, SndReturn(c));
      case Rcv(c) => RcvGood(s, c, RcvReturn(c));
      case Deref(c) => DerefGood(s, c);
      case Share(c) => ShareGood(s, c);
      case Die(v) => DieGood(s, v);
      case Join(child) => JoinGood(s, child);
      case NewGroup => NewGroupGood(s);
      case GroupAdd(g, c) => GroupAddGood(s, g, c);
      case GroupRem(g, c) => GroupRemGood(s, g, c);
      case Wait(g) => if s.groups[g].members != [] { WaitGood(s, g); } else { RefsStay(s, s); }
      case Continue => ContinueGood(s);
    }
  }

  lemma RefsStay(s: State, s': State)
    requires Shape(s') && Contents(s') && s'.Cur().state == RUNNING
    ensures forall ev, b :: Good(Outcome(s', ev, b))
  {
  }

  lemma SameKinKeeps(s: State, s': State)
    requires Refs(s) && Refs(s') && Kin(s) && SameKin(s, s')
    ensures Kin(s')
  {
    hide ChanRefs;
    assert forall t :: 0 <= t < |s.threads| ==> TcbRefs(s, s.threads[t]) && TcbRefs(s', s'.threads[t]);
  }

  lemma NewChanKin(s: State, size: nat)
    requires Refs(s) && Kin(s) && Refs(NewChan(s, size, false))
    ensures Kin(NewChan(s, size, false))
  {
    assert forall t :: 0 <= t < |s.threads| ==> TcbRefs(s, s.threads[t]);
  }

  lemma BodyKeepsKin(s: State, call: Call)
    requires Enabled(s, call) && Kin(s) && Refs(Body(s, call).s)
    ensures Kin(Body(s, call).s)
  {
    hide Refs, Kin, SameKin, CreateBody, Permitted, CanSchedule;
    if call.Create? {
      CreateKin(s, call.nojoin);
    } else if call.MakeChan? {
      NewChanKin(s, call.size);
    } else {
      hide Body;
      BodyKin(s, call);
      SameKinKeeps(s, Body(s, call).s);
    }
  }

  /** Every call, in any state that meets the invariant, leaves one that does. */
  lemma ExecInv(s: State, call: Call)
    requires Inv(s) && Kin(s) && Enabled(s, call)
    ensures Inv(Exec(s, call)) && Kin(Exec(s, call))
  {
    hide Body, Kin, Contents, Refs, CallRefs, Permitted, CanSchedule, Schedule, Placed, ThreadOk, GroupOk, OwnerOk;
    var o := Body(s, call);
    BodyGood(s, call);
    BodyKeepsKin(s, call);
    if o.schedules {
      ScheduleGood(o.s);
    }
  }

  lemma ScheduleGood(s: State)
    requires Shape(s) && Contents(s) && CanSchedule(s)
    ensures Inv(Schedule(s)) && (Kin(s) ==> Kin(Schedule(s)))
  {
    ScheduleShape(s);
    var s' := Schedule(s);
    assert forall u, d :: 0 <= u < |s.threads| && 0 <= d < |s.chans| && Waiting(s', u, d) ==> Waiting(s, u, d);
  }

  lemma StartInv()
    ensures Inv(Start()) && Kin(Start())
  {
    var s := Start();
    StartRefs();
    assert s.rings[RUN] == [0] && s.rings[RECYCLE] == [] && s.rings[2] == [];
    assert |s.threads| == 1 && |s.rings| == 3 && s.groups == [];
  }

  lemma StartRefs()
    ensures Refs(Start())
  {
    var s := Start();
    assert s.rings[RUN] == [0] && s.rings[RECYCLE] == [] && s.rings[2] == [];
  }

  /** The invariant holds in every state of every run. */
  lemma {:induction false} RunInv(worlds: seq<World>, calls: seq<Call>, i: nat)
    requires Run(worlds, calls) && i < |worlds|
    ensures Inv(worlds[i].s) && Kin(worlds[i].s)
  {
    if i == 0 {
      StartInv();
    } else {
      RunInv(worlds, calls, i - 1);
      ExecInv(worlds[i - 1].s, calls[i - 1]);
    }
  }

  /** Thread placement, in every state of every run: a thread's node is in the run
      queue iff it is runnable or running, in the recycle queue iff it is a zombie,
      in one sender queue iff it is blocked sending there, and in no ring iff it is
      blocked receiving; never twice, and the current thread is queued to run. */
  lemma ThreadPlacement(worlds: seq<World>, calls: seq<Call>, i: nat, t: Tid)
    requires Run(worlds, calls) && i < |worlds| && t < |worlds[i].s.threads|
    ensures
      var s := worlds[i].s;
      var x := s.threads[t];
      && |s.rings| == |s.chans| + 2 && (forall r :: 0 <= r < |s.rings| ==> NoDup(s.rings[r]))
      && (t in s.rings[RUN] <==> x.state == RUNNABLE || x.state == RUNNING)
      && (t in s.rings[RECYCLE] <==> x.state == ZOMBIES)
      && (forall c :: 0 <= c < |s.chans| ==>
            (t in s.rings[Senders(c)] <==> x.state == BLOCKED && x.blockFor == SENDING && Sending(x.cont) == Some(c)))
      && (x.state == BLOCKED && x.blockFor == RECEIVING <==> forall r :: 0 <= r < |s.rings| ==> t !in s.rings[r])
      && (t == s.current ==> x.state == RUNNING)
  {
    hide Contents, GroupOk, OwnerOk, Kin, Enabled, Exec, Body;
    RunInv(worlds, calls, i);
    var s := worlds[i].s;
    assert ThreadOk(s, t);
    assert TcbRefs(s, s.threads[t]);
    PlacementOf(s, t);
  }

  lemma PlacementOf(s: State, t: Tid)
    requires Shape(s) && t < |s.threads|
    ensures Home(s.threads[t]) == NOWHERE <==> s.threads[t].state == BLOCKED && s.threads[t].blockFor == RECEIVING
    ensures Home(s.threads[t]) == NOWHERE <==> forall r :: 0 <= r < |s.rings| ==> t !in s.rings[r]
  {
    assert ThreadOk(s, t) && TcbRefs(s, s.threads[t]);
    if Home(s.threads[t]) != NOWHERE {
      assert t in s.rings[Home(s.threads[t])];
    }
  }

  /** Channel shape, in every state of every run: the ring never over- or underflows,
      senders queue only when it is full (so behind an empty one only if it has no
      slots), whoever is blocked in lwt_rcv waits on an empty channel, and ready says
      whether there is anything to receive. */
  lemma ChannelShape(worlds: seq<World>, calls: seq<Call>, i: nat, c: Cid)
    requires Run(worlds, calls) && i < |worlds| && c < |worlds[i].s.chans|
    ensures
      var s := worlds[i].s;
      var ch := s.chans[c];
      && |s.rings| == |s.chans| + 2
      && 0 <= ch.tail - ch.head <= ch.Size()
      && (s.rings[Senders(c)] != [] ==> ch.tail - ch.head == ch.Size())
      && (s.rings[Senders(c)] != [] && ch.tail == ch.head ==> ch.Size() == 0)
      && (ch.ready <==> ch.tail != ch.head || s.rings[Senders(c)] != [])
      && (forall t :: 0 <= t < |s.threads| && Waiting(s, t, c) ==>
            ch.receiver == Some(t) && ch.tail == ch.head && s.rings[Senders(c)] == [])
  {
    hide Placed, GroupOk, OwnerOk, Kin, Enabled, Exec, Body;
    RunInv(worlds, calls, i);
    var s := worlds[i].s;
    assert ChanOk(s.chans[c], s.rings[Senders(c)]) && ChanRefs(s, s.chans[c]);
    forall t | 0 <= t < |s.threads| && Waiting(s, t, c)
      ensures s.chans[c].receiver == Some(t) && !s.chans[c].ready
    {
      assert ThreadOk(s, t);
    }
  }

  // ----- channels that are freed -----

  /** lwt_snd on a channel without receiver: -1, and nothing happens. */
  lemma SndRefuses(s: State, c: Cid, v: Value, rest: Cont)
    requires Refs(s) && c < |s.chans|
    ensures s.chans[c].receiver == None <==> SndBody(s, c, v, rest) == Outcome(s, [Failed], false)
  {
    hide TcbRefs, Resume, Signal, Block, Put;
    var ev := Signal(s, c).ev;
    assert (ev + [Accepted(c, v)])[|ev|] == Accepted(c, v);
    assert forall stray: seq<Event> :: ([Accepted(c, v)] + stray)[0] == Accepted(c, v);
  }

  ghost predicate Freed(s: State, c: Cid) { c < |s.chans| && s.chans[c].freed && s.chans[c].receiver == None }

  lemma FreedStays(s: State, call: Call, c: Cid)
    requires Inv(s) && Kin(s) && Enabled(s, call) && c < |s.chans| && (s.chans[c].freed ==> Freed(s, c))
    ensures c < |Exec(s, call).chans| && (Exec(s, call).chans[c].freed ==> Freed(Exec(s, call), c))
    ensures Freed(s, c) ==> Freed(Exec(s, call), c)
  {
    hide Inv, Kin, CreateBody, Permitted, CanSchedule, SameKin;
    InvRefs(s);
    if call.Create? {
      CreateFacts(s, call.nojoin);
    } else if !call.MakeChan? {
      hide Body;
      BodyKin(s, call);
      KinOfChan(s, Body(s, call).s, c);
    }
  }

  lemma InvRefs(s: State)
    requires Inv(s)
    ensures Refs(s)
  {
  }

  lemma KinOfChan(s: State, s': State, c: Cid)
    requires SameKin(s, s') && c < |s.chans|
    ensures c < |s'.chans| && ChanKin(s.chans[c], s'.chans[c])
  {
  }

  lemma {:induction false} FreedRun(worlds: seq<World>, calls: seq<Call>, i: nat, j: nat, c: Cid)
    requires Run(worlds, calls) && i <= j < |worlds| && c < |worlds[i].s.chans| && worlds[i].s.chans[c].freed
    ensures Freed(worlds[j].s, c)
    decreases j
  {
    hide Inv, Kin, CanSchedule, Body, Permitted, Refs, Exec, CallRefs;
    if i == j {
      FreedHasNone(worlds, calls, i, c);
    } else {
      FreedRun(worlds, calls, i, j - 1, c);
      RunInv(worlds, calls, j - 1);
      FreedStays(worlds[j - 1].s, calls[j - 1], c);
    }
  }

  /** Once lwt_chan_deref has freed a channel, it has no receiver and never gets one:
      from then on every lwt_snd on it is refused. */
  lemma FreedForGood(worlds: seq<World>, calls: seq<Call>, i: nat, j: nat, c: Cid, v: Value)
    requires Run(worlds, calls) && i <= j < |worlds| && c < |worlds[i].s.chans| && worlds[i].s.chans[c].freed
    ensures Refs(worlds[j].s) && Freed(worlds[j].s, c)
    ensures SndBody(worlds[j].s, c, v, SndReturn(c)) == Outcome(worlds[j].s, [Failed], false)
  {
    hide Inv, Kin, CanSchedule, Body, Permitted, Refs, Exec, CallRefs, SndBody;
    FreedRun(worlds, calls, i, j, c);
    RunInv(worlds, calls, j);
    InvRefs(worlds[j].s);
    SndRefuses(worlds[j].s, c, v, SndReturn(c));
  }

  lemma {:induction false} FreedHasNone(worlds: seq<World>, calls: seq<Call>, i: nat, c: Cid)
    requires Run(worlds, calls) && i < |worlds| && c < |worlds[i].s.chans|
    ensures worlds[i].s.chans[c].freed ==> worlds[i].s.chans[c].receiver == None
  {
    hide Inv, Kin, CanSchedule, Body, Permitted, Refs, Exec, CallRefs;
    if i > 0 {
      var s, call := worlds[i - 1].s, calls[i - 1];
      RunInv(worlds, calls, i - 1);
      if c < |s.chans| {
        FreedHasNone(worlds, calls, i - 1, c);
        FreedStays(s, call, c);
      } else {
        NewNotFreed(s, call, c);
      }
    }
  }

  lemma NewNotFreed(s: State, call: Call, c: Cid)
    requires Enabled(s, call) && |s.chans| <= c < |Exec(s, call).chans|
    ensures !Exec(s, call).chans[c].freed
  {
    hide CreateBody, Permitted, CanSchedule, SameKin;
    if call.Create? {
      CreateFacts(s, call.nojoin);
    } else if !call.MakeChan? {
      hide Body;
      BodyKin(s, call);
      KinSizes(s, Body(s, call).s);
    }
  }

  lemma KinSizes(s: State, s': State)
    requires SameKin(s, s')
    ensures |s'.chans| == |s.chans|
  {
  }
}
