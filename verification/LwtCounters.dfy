/** The kernel thread's counters agree with its threads. */
module LwtCounters {
  import opened Options
  import opened Lwt
  import opened LwtShape
  import opened LwtCalls
  import opened LwtFrames

  function Count(threads: seq<Tcb>, p: Tcb -> bool): nat {
    if threads == [] then 0 else One(p(threads[0])) + Count(threads[1..], p)
  }

  lemma {:induction false} CountUpdate(threads: seq<Tcb>, t: nat, x: Tcb, p: Tcb -> bool)
    requires t < |threads|
    ensures Count(threads[t := x], p) == Count(threads, p) - One(p(threads[t])) + One(p(x))
  {
    if t == 0 {
      assert threads[t := x][1..] == threads[1..];
    } else {
      assert threads[t := x][1..] == threads[1..][t - 1 := x];
      CountUpdate(threads[1..], t - 1, x, p);
    }
  }

  lemma {:induction false} CountSnoc(threads: seq<Tcb>, x: Tcb, p: Tcb -> bool)
    ensures Count(threads + [x], p) == Count(threads, p) + One(p(x))
  {
    if threads == [] {
      assert threads + [x] == [x] && [x][1..] == [];
    } else {
      assert (threads + [x])[1..] == threads[1..] + [x];
      CountSnoc(threads[1..], x, p);
    }
  }

  predicate IsReceiving(x: Tcb) { x.state == BLOCKED && x.blockFor == RECEIVING }

  predicate IsSending(x: Tcb) { x.state == BLOCKED && x.blockFor == SENDING }

  predicate IsDying(x: Tcb) { x.cont.DieSnd? }

  /** extra: how often a thread was resumed that was not blocked; dying: lwt_die
      calls counted whose thread is not yet marked. */
  ghost predicate Books(s: State, extra: int, dying: int) {
    && s.blockCounter == s.nrcving + s.nsnding
    && s.nsnding == Count(s.threads, IsSending)
    && s.nrcving + extra == Count(s.threads, IsReceiving)
    && s.zombieCounter == Count(s.threads, IsDying) + dying
  }

  function RewakesIn(log: seq<Event>): nat {
    if log == [] then 0 else (if log[0].Rewoken? then 1 else 0) + RewakesIn(log[1..])
  }

  lemma {:induction false} RewakesConcat(a: seq<Event>, b: seq<Event>)
    ensures RewakesIn(a + b) == RewakesIn(a) + RewakesIn(b)
  {
    if a == [] {
      assert a + b == b;
    } else {
      RewakesConcat(a[1..], b);
      assert (a + b)[1..] == a[1..] + b;
    }
  }

  lemma RewakesSingle(e: Event)
    ensures RewakesIn([e]) == if e.Rewoken? then 1 else 0
  {
    assert [e][1..] == [];
  }

  lemma RewakesPair(a: Event, b: Event)
    ensures RewakesIn([a, b]) == (if a.Rewoken? then 1 else 0) + (if b.Rewoken? then 1 else 0)
  {
    assert [a, b][1..] == [b];
    RewakesSingle(b);
  }

  /** One thread's fields change; the counters must move with the three counts. */
  lemma BooksChange(s: State, t: Tid, x: Tcb, s': State, extra: int, dying: int, extra': int, dying': int)
    requires Books(s, extra, dying) && t < |s.threads| && s'.threads == s.threads[t := x]
    requires s'.nsnding - s.nsnding == One(IsSending(x)) - One(IsSending(s.threads[t]))
    requires s'.nrcving - s.nrcving + extra' - extra == One(IsReceiving(x)) - One(IsReceiving(s.threads[t]))
    requires s'.blockCounter - s.blockCounter == s'.nrcving - s.nrcving + s'.nsnding - s.nsnding
    requires s'.zombieCounter - s.zombieCounter == One(IsDying(x)) - One(IsDying(s.threads[t])) + dying' - dying
    ensures Books(s', extra', dying')
  {
    CountUpdate(s.threads, t, x, IsSending);
    CountUpdate(s.threads, t, x, IsReceiving);
    CountUpdate(s.threads, t, x, IsDying);
  }

  /** __resume_thread counts one blocked thread less, blocked or not. */
  lemma ResumeBooks(s: State, t: Tid, extra: int, dying: int)
    requires Books(s, extra, dying) && t < |s.threads| && RUN < |s.rings|
    requires s.threads[t].state == BLOCKED || s.threads[t].blockFor == RECEIVING
    ensures Books(Resume(s, t), if s.threads[t].state == BLOCKED then extra else extra + 1, dying)
  {
    BooksChange(s, t, s.threads[t].(state := RUNNABLE), Resume(s, t), extra, dying,
                if s.threads[t].state == BLOCKED then extra else extra + 1, dying);
  }

  lemma BlockBooks(s: State, why: BlockFor, c: Cid, rest: Cont, extra: int, dying: int)
    requires Books(s, extra, dying) && s.current < |s.threads| && s.Cur().state == RUNNING && !s.Cur().cont.DieSnd?
    requires why == SENDING ==> Senders(c) < |s.rings|
    ensures Books(Block(s, why, c, rest), extra, dying - One(rest.DieSnd?))
  {
    BooksChange(s, s.current, Block(s, why, c, rest).threads[s.current], Block(s, why, c, rest), extra, dying,
                extra, dying - One(rest.DieSnd?));
  }

  /** A change that counts for nothing. */
  lemma FieldBooks(s: State, t: Tid, x: Tcb, s': State, extra: int, dying: int)
    requires Books(s, extra, dying) && t < |s.threads| && s'.threads == s.threads[t := x]
    requires IsSending(x) == IsSending(s.threads[t]) && IsReceiving(x) == IsReceiving(s.threads[t]) &&
      IsDying(x) == IsDying(s.threads[t])
    requires s'.nsnding == s.nsnding && s'.nrcving == s.nrcving && s'.blockCounter == s.blockCounter &&
      s'.zombieCounter == s.zombieCounter
    ensures Books(s', extra, dying)
  {
    BooksChange(s, t, x, s', extra, dying, extra, dying);
  }

  lemma SignalBooks(s: State, c: Cid, extra: int, dying: int)
    requires Inv(s) && c < |s.chans| && Books(s, extra, dying)
    ensures Books(Signal(s, c).s, extra + RewakesIn(Signal(s, c).ev), dying)
    ensures Signal(s, c).s.current == s.current && |Signal(s, c).s.threads| == |s.threads|
    ensures |Signal(s, c).s.rings| == |s.rings|
    ensures s.Cur().cont == Idle ==> Signal(s, c).s.Cur() == s.Cur()
  {
    hide Placed, Contents, TcbRefs;
    var s1 := WithChan(s, c, s.chans[c].(ready := true));
    var g := s.chans[c].cgroup;
    if g.Some? && s.groups[g.value].blocked {
      var owner := s.groups[g.value].owner;
      assert OwnerOk(s.groups, owner, s.threads[owner]) && ThreadOk(s, owner);
      assert Books(s1, extra, dying);
      ResumeBooks(s1, owner, extra, dying);
      RewakesSingle(Rewoken(owner));
    }
  }

  lemma SndBooks(s: State, c: Cid, v: Value, rest: Cont, extra: int, dying: int)
    requires Inv(s) && c < |s.chans| && s.Cur().cont == Idle && Books(s, extra, dying)
    ensures
      var o := SndBody(s, c, v, rest);
      Books(o.s, extra + RewakesIn(o.ev), if o.schedules then dying - One(rest.DieSnd?) else dying)
  {
    hide Placed, Contents, TcbRefs, Signal, Books, ThreadOk, GroupOk, OwnerOk, Block;
    RewakesSingle(Failed);
    RewakesSingle(Accepted(c, v));
    RewakesPair(Accepted(c, v), Stray(c));
    if s.chans[c].receiver.Some? {
      var r := s.chans[c].receiver.value;
      if WaitsFor(s.threads[r], c) {
        var s1 := WithMessage(s, r, v);
        FieldBooks(s, r, s1.threads[r], s1, extra, dying);
        ResumeBooks(s1, r, extra, dying);
      } else {
        SignalBooks(s, c, extra, dying);
        SignalKin(s, c);
        var o := Signal(s, c);
        RewakesConcat(o.ev, [Accepted(c, v)]);
        var e := extra + RewakesIn(o.ev);
        if s.chans[c].tail - s.chans[c].head != s.chans[c].Size() {
          SameBooks(o.s, WithChan(o.s, c, Put(o.s.chans[c], v)), e, dying);
        } else {
          var s2 := WithMessage(o.s, s.current, v);
          FieldBooks(o.s, s.current, s2.Cur(), s2, e, dying);
          BlockBooks(s2, SENDING, c, rest, e, dying);
        }
      }
    }
  }

  lemma SameBooks(s: State, s': State, extra: int, dying: int)
    requires Books(s, extra, dying) && s'.threads == s.threads
    requires s'.nsnding == s.nsnding && s'.nrcving == s.nrcving && s'.blockCounter == s.blockCounter &&
      s'.zombieCounter == s.zombieCounter
    ensures Books(s', extra, dying)
  {
  }

  lemma RcvBooks(s: State, c: Cid, rest: Cont, extra: int, dying: int)
    requires Inv(s) && c < |s.chans| && s.Cur().cont == Idle && Books(s, extra, dying) && !rest.DieSnd?
    ensures
      var o := RcvBody(s, c, rest);
      Books(o.s, extra, dying) && RewakesIn(o.ev) == 0
  {
    hide Contents, TcbRefs, Books, GroupOk, OwnerOk, Block, Put;
    var o, queue := RcvBody(s, c, rest), s.rings[Senders(c)];
    if o.ev != [] { RewakesSingle(o.ev[0]); }
    if queue != [] {
      assert queue[0] in queue;
      ResumeBooks(s, queue[0], extra, dying);
      SameBooks(Resume(s, queue[0]), WithChan(Resume(s, queue[0]), c, o.s.chans[c]), extra, dying);
    } else if s.chans[c].tail - s.chans[c].head != 0 {
      SameBooks(s, o.s, extra, dying);
    } else {
      var x := s.Cur().(nowRcving := Some(c));
      var s1 := s.(threads := s.threads[s.current := x]);
      FieldBooks(s, s.current, x, s1, extra, dying);
      BlockBooks(s1, RECEIVING, c, rest, extra, dying);
    }
  }

  lemma ExitBooks(s: State, extra: int, dying: int)
    requires s.current < |s.threads| && RECYCLE < |s.rings| && Books(s, extra, dying) && s.Cur().state == RUNNING
    ensures Books(ExitBody(s).s, extra, dying - One(!s.Cur().cont.DieSnd?)) && RewakesIn(ExitBody(s).ev) == 0
  {
    RewakesSingle(ExitBody(s).ev[0]);
    BooksChange(s, s.current, ExitBody(s).s.threads[s.current], ExitBody(s).s, extra, dying,
                extra, dying - One(!s.Cur().cont.DieSnd?));
  }

  lemma DieBooks(s: State, v: Value, extra: int)
    requires Inv(s) && s.Cur().cont == Idle && Books(s, extra, 0)
    ensures Books(DieBody(s, v).s, extra + RewakesIn(DieBody(s, v).ev), 0)
  {
    hide Placed, Contents, TcbRefs, ThreadOk, GroupOk, OwnerOk, SndBody, ExitBody, Books;
    var c, s0 := s.Cur().chl, s.(zombieCounter := s.zombieCounter + 1);
    var s1 := WithMessage(s0, s.current, v);
    var o := DieSends(s, v, extra);
    RewakesSingle(Died(s.current, c, v));
    RewakesConcat([Died(s.current, c, v)], o.ev);
    if !o.schedules {
      ExitBooks(o.s, extra + RewakesIn(o.ev), 1);
      RewakesConcat([Died(s.current, c, v)] + o.ev, ExitBody(o.s).ev);
    }
  }

  lemma DieSends(s: State, v: Value, extra: int) returns (o: Outcome)
    requires Inv(s) && s.Cur().cont == Idle && Books(s, extra, 0)
    ensures s.Cur().chl < |s.chans|
    ensures
      var s1 := WithMessage(s.(zombieCounter := s.zombieCounter + 1), s.current, v);
      Refs(s1) && o == SndBody(s1, s.Cur().chl, v, DieSnd(s.Cur().chl))
    ensures Books(o.s, extra + RewakesIn(o.ev), if o.schedules then 0 else 1)
    ensures o.s.current == s.current < |o.s.threads| && RECYCLE < |o.s.rings|
    ensures !o.schedules ==> o.s.Cur().state == RUNNING && o.s.Cur().cont == Idle
  {
    hide Placed, Contents, TcbRefs, ThreadOk, GroupOk, OwnerOk, SndBody;
    var c, s0 := s.Cur().chl, s.(zombieCounter := s.zombieCounter + 1);
    DieBodyRefs(s);
    CountersFree(s, s0);
    MessageGood(s0, s.current, v);
    var s1 := WithMessage(s0, s.current, v);
    FieldBooks(s0, s.current, s1.Cur(), s1, extra, 1);
    o := SndBody(s1, c, v, DieSnd(c));
    SndBooks(s1, c, v, DieSnd(c), extra, 1);
    SndKeepsCurrent(s1, c, v, DieSnd(c));
    SndKin(s1, c, v, DieSnd(c));
  }

  lemma YieldBooks(s: State, to: Option<Tid>, extra: int, dying: int)
    requires s.current < |s.threads| && RUN < |s.rings| && (to.Some? ==> to.value < |s.threads|) &&
      Books(s, extra, dying)
    ensures Books(YieldBody(s, to).s, extra, dying) && YieldBody(s, to).ev == []
  {
  }

  lemma JoinBooks(s: State, child: Tid, extra: int)
    requires Inv(s) && child < |s.threads| && s.Cur().cont == Idle && Books(s, extra, 0)
    ensures Books(JoinBody(s, child).s, extra, 0) && RewakesIn(JoinBody(s, child).ev) == 0
  {
    hide Placed, Contents, TcbRefs, ThreadOk, GroupOk, OwnerOk, RcvBody, YieldBody, Books;
    var c := s.threads[child].chl;
    RewakesSingle(Failed);
    DieBodyRefs(s);
    ChlRefs(s, child);
    RcvEvents(s, c, JoinReturn(child, c));
    RcvBooks(s, c, JoinReturn(child, c), extra, 0);
    RcvKin(s, c, JoinReturn(child, c));
    var o := RcvBody(s, c, JoinReturn(child, c));
    if s.threads[child].parent == Some(s.current) && !s.threads[child].nojoin && !o.schedules {
      YieldBooks(o.s, Some(child), extra, 0);
      var joined := Joined(child, c, o.ev[0].v);
      RewakesSingle(joined);
      RewakesConcat(o.ev, [joined]);
    }
  }

  lemma WaitBooks(s: State, g: Gid, extra: int)
    requires Inv(s) && g < |s.groups| && !s.Cur().cont.DieSnd? && Books(s, extra, 0)
    ensures Books(WaitBody(s, g).s, extra, 0) && RewakesIn(WaitBody(s, g).ev) == 0
  {
    hide Placed, Contents, TcbRefs, ThreadOk, GroupOk, OwnerOk, Books, Block, FirstReady;
    var o := WaitBody(s, g);
    if o.schedules {
      var s1 := WithGroup(s, g, s.groups[g].(blocked := true));
      SameBooks(s, s1, extra, 0);
      BlockBooks(s1, RECEIVING, 0, GroupWait(g), extra, 0);
    } else {
      RewakesSingle(o.ev[0]);
      FieldBooks(s, s.current, o.s.threads[s.current], o.s, extra, 0);
    }
  }

  lemma ContinueBooks(s: State, extra: int)
    requires Inv(s) && s.Cur().cont != Idle && Books(s, extra, 0)
    ensures Books(ContinueBody(s).s, extra, 0) && RewakesIn(ContinueBody(s).ev) == 0
  {
    hide Placed, Contents, ThreadOk, GroupOk, OwnerOk, Books, WaitBody, ExitBody, YieldBody;
    var x, o := s.Cur(), ContinueBody(s);
    if x.cont.DieSnd? {
      ExitBooks(s, extra, 0);
    } else if x.cont.GroupWait? {
      assert TcbRefs(s, x);
      WaitBooks(s, x.cont.g, extra);
    } else {
      var idle := s.(threads := s.threads[s.current := x.(cont := Idle)]);
      FieldBooks(s, s.current, x.(cont := Idle), idle, extra, 0);
      if x.cont.JoinReturn? {
        assert TcbRefs(s, x);
        YieldBooks(idle, Some(x.cont.child), extra, 0);
        RewakesPair(o.ev[0], o.ev[1]);
      } else if o.ev != [] {
        RewakesSingle(o.ev[0]);
      }
    }
  }

  lemma CreateBooks(s: State, nojoin: bool, extra: int)
    requires Inv(s) && Books(s, extra, 0)
    ensures Books(CreateBody(s, nojoin).s, extra, 0) && CreateBody(s, nojoin).ev == []
  {
    CreateFacts(s, nojoin);
    var s', t := CreateBody(s, nojoin).s, Created(s);
    assert s'.nsnding == s.nsnding && s'.nrcving == s.nrcving && s'.blockCounter == s.blockCounter &&
      s'.zombieCounter == s.zombieCounter;
    if t < |s.threads| {
      assert t in s.rings[RECYCLE];
      assert ThreadOk(s, t);
      hide CreateBody;
      FieldBooks(s, t, s'.threads[t], s', extra, 0);
    } else {
      hide CreateBody;
      CountSnoc(s.threads, s'.threads[t], IsSending);
      CountSnoc(s.threads, s'.threads[t], IsReceiving);
      CountSnoc(s.threads, s'.threads[t], IsDying);
    }
  }

  lemma ScheduleBooks(s: State, extra: int)
    requires Shape(s) && CanSchedule(s) && Books(s, extra, 0)
    ensures Books(Schedule(s), extra, 0)
  {
    hide Refs, Placed, ThreadOk, GroupOk, OwnerOk, Books;
    var t := s.rings[RUN][0];
    AtHome(s, t);
    FieldBooks(s, t, s.threads[t].(state := RUNNING), Schedule(s), extra, 0);
  }

  lemma StepBooks(s: State, call: Call, extra: int)
    requires Inv(s) && Kin(s) && Enabled(s, call) && Books(s, extra, 0)
    ensures Books(Exec(s, call), extra + RewakesIn(Body(s, call).ev), 0)
  {
    hide Body, Inv, Kin, Shape, Contents, Refs, CallRefs, Permitted, CanSchedule, Schedule, Books;
    BodyBooks(s, call, extra);
    BodyGood(s, call);
    var o := Body(s, call);
    if o.schedules {
      ScheduleBooks(o.s, extra + RewakesIn(o.ev));
    }
  }

  lemma AtHome(s: State, t: Tid)
    requires Shape(s) && s.rings[RUN] != [] && t == s.rings[RUN][0]
    ensures t < |s.threads| && s.threads[t].state != BLOCKED
  {
    assert t in s.rings[RUN];
  }

  lemma BodyBooks(s: State, call: Call, extra: int)
    requires Inv(s) && Kin(s) && Enabled(s, call) && Books(s, extra, 0)
    ensures Books(Body(s, call).s, extra + RewakesIn(Body(s, call).ev), 0)
  {
    hide Placed, Contents, TcbRefs, ThreadOk, GroupOk, OwnerOk, Books;
    hide SndBody, RcvBody, YieldBody, DieBody, JoinBody, ContinueBody, CreateBody, WaitBody;
    RewakesSingle(Failed);
    match call {
      case Yield(to) => YieldBooks(s, to, extra, 0);
      case Create(nojoin) => CreateBooks(s, nojoin, extra);
      case Snd(c, v) => SndBooks(s, c, v, SndReturn(c), extra, 0);
      case Rcv(c) => RcvBooks(s, c, RcvReturn(c), extra, 0);
      case Die(v) => DieBooks(s, v, extra);
      case Join(child) => JoinBooks(s, child, extra);
      case Wait(g) => if s.groups[g].members != [] { WaitBooks(s, g, extra); }
      case Continue => ContinueBooks(s, extra);
      case _ => SameBooks(s, Body(s, call).s, extra, 0);
    }
  }

  lemma StartBooks()
    ensures Books(Start(), 0, 0)
  {
    assert Start().threads[1..] == [];
  }

  lemma {:induction false} RunBooks(worlds: seq<World>, calls: seq<Call>, i: nat)
    requires Run(worlds, calls) && i < |worlds|
    ensures Books(worlds[i].s, RewakesIn(worlds[i].log), 0)
  {
    hide Inv, Kin, Refs, CallRefs, Permitted, CanSchedule, Books, RewakesIn, Start, Exec, Body;
    if i == 0 {
      StartBooks();
      RewakesEmpty();
    } else {
      RunBooks(worlds, calls, i - 1);
      RunInv(worlds, calls, i - 1);
      var s, log := worlds[i - 1].s, worlds[i - 1].log;
      StepBooks(s, calls[i - 1], RewakesIn(log));
      RewakesConcat(log, Body(s, calls[i - 1]).ev);
    }
  }

  lemma RewakesEmpty()
    ensures RewakesIn([]) == 0
  {
  }

  /** A send will signal a group that is marked blocked although its owner has been
      resumed already and has not run since. */
  ghost predicate SecondWake(s: State, call: Call)
    requires Refs(s) && CallRefs(s, call)
  {
    call.Snd? &&
    var ch := s.chans[call.c];
    && ch.receiver.Some? && !WaitsFor(s.threads[ch.receiver.value], call.c)
    && ch.cgroup.Some? && s.groups[ch.cgroup.value].blocked
    && s.threads[s.groups[ch.cgroup.value].owner].state != BLOCKED
  }

  lemma SndRewakes(s: State, c: Cid, v: Value, rest: Cont)
    requires Refs(s) && c < |s.chans|
    ensures RewakesIn(SndBody(s, c, v, rest).ev) > 0 <==> SecondWake(s, Snd(c, v))
  {
    hide TcbRefs, Resume, Block, Put;
    RewakesSingle(Failed);
    RewakesSingle(Accepted(c, v));
    RewakesPair(Accepted(c, v), Stray(c));
    var o := Signal(s, c);
    if o.ev != [] { RewakesSingle(o.ev[0]); }
    RewakesConcat(o.ev, [Accepted(c, v)]);
    assert [Accepted(c, v)] + [] == [Accepted(c, v)];
    assert [Accepted(c, v)] + [Stray(c)] == [Accepted(c, v), Stray(c)];
  }

  lemma {:induction false} NoRewakes(ev: seq<Event>)
    requires forall e :: e in ev ==> !e.Rewoken?
    ensures RewakesIn(ev) == 0
  {
    if ev != [] {
      assert ev[0] in ev && forall e :: e in ev[1..] ==> e in ev;
      NoRewakes(ev[1..]);
    }
  }

  lemma DieRewakes(s: State, v: Value)
    requires Inv(s) && Kin(s)
    ensures RewakesIn(DieBody(s, v).ev) == 0
  {
    hide SndBody, TcbRefs, Placed, ThreadOk, GroupOk, OwnerOk, Contents;
    var c := s.Cur().chl;
    DieBodyRefs(s);
    var s1 := WithMessage(s.(zombieCounter := s.zombieCounter + 1), s.current, v);
    MessageRefs(s, s1);
    SndRewakes(s1, c, v, DieSnd(c));
    SndKin(s1, c, v, DieSnd(c));
    var o, died := SndBody(s1, c, v, DieSnd(c)), Died(s.current, c, v);
    RewakesSingle(died);
    RewakesConcat([died], o.ev);
    if !o.schedules {
      RewakesSingle(ExitBody(o.s).ev[0]);
      RewakesConcat([died] + o.ev, ExitBody(o.s).ev);
    }
  }

  /** An owner is counted out a second time exactly by such a send. */
  lemma RewakesWhen(s: State, call: Call)
    requires Inv(s) && Kin(s) && Enabled(s, call)
    ensures RewakesIn(Body(s, call).ev) > 0 <==> SecondWake(s, call)
  {
    hide Placed, ThreadOk, GroupOk, OwnerOk, Contents, TcbRefs;
    hide SndBody, RcvBody, DieBody, JoinBody, YieldBody, CreateBody;
    if call.Snd? {
      SndRewakes(s, call.c, call.v, SndReturn(call.c));
    } else if call.Die? {
      DieRewakes(s, call.v);
    } else {
      ContRefs(s, s.current);
      if call.Yield? { YieldSays(s, call.to); }
      if call.Create? { CreateSays(s, call.nojoin); }
      if call.Rcv? { RcvEvents(s, call.c, RcvReturn(call.c)); }
      if call.Join? { JoinEvents(s, call.child); }
      NoRewakes(Body(s, call).ev);
    }
  }

  // ----- the law -----

  /** No such send has been made in the first i calls of the run. */
  ghost predicate NeverTwice(worlds: seq<World>, calls: seq<Call>, i: nat)
    requires Run(worlds, calls) && i < |worlds|
  {
    forall j {:trigger calls[j]} :: 0 <= j < i ==> !SecondWake(worlds[j].s, calls[j])
  }

  lemma {:induction false} RunRewakes(worlds: seq<World>, calls: seq<Call>, i: nat)
    requires Run(worlds, calls) && i < |worlds|
    ensures RewakesIn(worlds[i].log) == 0 <==> NeverTwice(worlds, calls, i)
  {
    hide Inv, Kin, Permitted, CanSchedule, Body, Exec, Start, SecondWake, Refs, CallRefs, RewakesIn;
    if i == 0 {
      RewakesEmpty();
    } else {
      var call, ev := calls[i - 1], Body(worlds[i - 1].s, calls[i - 1]).ev;
      RunRewakes(worlds, calls, i - 1);
      RunInv(worlds, calls, i - 1);
      RewakesWhen(worlds[i - 1].s, call);
      RewakesConcat(worlds[i - 1].log, ev);
    }
  }

  /** In every state of every run: block_counter is the sum of the other two,
      nsnding counts the threads blocked sending, zombie_counter those still inside
      lwt_die's send; nrcving falls short of the threads blocked receiving by the
      number of second wakes, and so counts them if and only if there was none. */
  lemma CounterIdentity(worlds: seq<World>, calls: seq<Call>, i: nat)
    requires Run(worlds, calls) && i < |worlds|
    ensures
      var (s, log) := (worlds[i].s, worlds[i].log);
      && s.blockCounter == s.nrcving + s.nsnding
      && s.nsnding == Count(s.threads, IsSending)
      && s.zombieCounter == Count(s.threads, IsDying)
      && s.nrcving == Count(s.threads, IsReceiving) - RewakesIn(log)
      && (s.nrcving == Count(s.threads, IsReceiving) <==> NeverTwice(worlds, calls, i))
  {
    hide NeverTwice, Run, Start, RewakesIn;
    RunBooks(worlds, calls, i);
    RunRewakes(worlds, calls, i);
  }
}
