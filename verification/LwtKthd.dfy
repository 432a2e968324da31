/** struct _kthd_info with its threads, channels and groups, changed in place by
    the library's functions.  Each method is held to the machine of Lwt. */
module LwtKthd {
  import opened Options
  import opened Queues
  import opened Lwt
  import opened LwtShape
  import opened LwtCalls
  import opened LwtFrames

  /** There is somebody to switch to, if there is to be a switch. */
  predicate CanFinish(o: Outcome) { o.schedules ==> CanSchedule(o.s) }

  /** The state when the current thread's next action begins. */
  function Finish(o: Outcome): State
    requires CanFinish(o)
  {
    if o.schedules then Schedule(o.s) else o.s
  }

  /** What a call hands back to its caller, when it returns. */
  datatype Answer = Nothing | Word(value: Value) | Channel(c: Cid) | Made(id: nat) | Refused

  /** The answer that what has happened calls for. */
  function Told(ev: seq<Event>): Answer {
    if ev == [] then Nothing
    else
      match ev[|ev| - 1]
      case Returned(_, v) => Word(v)
      case Joined(_, _, v) => Word(v)
      case Ready(_, c) => Channel(c)
      case Failed => Refused
      case _ => Nothing
  }

  /** A thread, channel or group made is named by its place. */
  ghost function AnswerOf(s: State, call: Call): Answer
    requires Refs(s) && CallRefs(s, call)
  {
    match call
    case Create(_) => Made(Created(s))
    case MakeChan(_) => Made(|s.chans|)
    case NewGroup => Made(|s.groups|)
    case _ => Told(Body(s, call).ev)
  }

  lemma ResumeSizes(s: State, t: Tid)
    requires t < |s.threads| && RUN < |s.rings|
    ensures
      var s' := Resume(s, t);
      && s'.chans == s.chans && s'.current == s.current && |s'.threads| == |s.threads| && |s'.rings| == |s.rings|
      && s'.threads[t].message == s.threads[t].message
  {
  }

  /** Every member is a channel. */
  ghost predicate MembersOk(chans: seq<Chan>, members: seq<Cid>) {
    forall k :: 0 <= k < |members| ==> members[k] < |chans|
  }

  lemma FirstReadyFrom(chans: seq<Chan>, members: seq<Cid>)
    requires MembersOk(chans, members) && members != []
    ensures MembersOk(chans, members[1..]) && forall c :: c in members || c in members[1..] ==> c < |chans|
    ensures FirstReady(chans, members) ==
      if chans[members[0]].ready then Some(members[0]) else FirstReady(chans, members[1..])
  {
  }

  lemma NoneReady(chans: seq<Chan>)
    ensures FirstReady(chans, []) == None
  {
  }

  class Kthd {
    var threads: seq<Tcb>
    var chans: seq<Chan>
    var groups: seq<Group>
    var rings: seq<seq<Tid>>
    var current: Tid
    var blockCounter: int
    var zombieCounter: int
    var nrcving: int
    var nsnding: int

    ghost function St(): State
      reads this
    {
      State(threads, chans, groups, rings, current, blockCounter, zombieCounter, nrcving, nsnding)
    }

    /** __initiate, init_kthd */
    constructor ()
      ensures St() == Start()
    {
      threads := [Tcb(RUNNING, RECEIVING, None, 0, 0, None, false, Idle)];
      chans := [Chan.Chan(Some(0), [], 0, 0, false, None, true, 1, false)];
      groups := [];
      rings := [[0], [], []];
      current := 0;
      blockCounter, zombieCounter, nrcving, nsnding := 0, 0, 0, 0;
    }

    method ResumeThread(t: Tid)
      requires t < |threads| && RUN < |rings|
      modifies this
      ensures St() == Resume(old(St()), t)
    {
      if threads[t].blockFor == RECEIVING {
        nrcving := nrcving - 1;
      }
      if threads[t].blockFor == SENDING {
        nsnding := nsnding - 1;
      }
      rings := Unlink(rings, t);
      threads := threads[t := threads[t].(state := RUNNABLE)];
      blockCounter := blockCounter - 1;
      rings := rings[RUN := BeforeLast(rings[RUN], t)];
    }

    method LwtSchedule()
      requires CanSchedule(St())
      modifies this
      ensures St() == Schedule(old(St()))
    {
      var t := rings[RUN][0];
      threads := threads[t := threads[t].(state := RUNNING)];
      current := t;
    }

    method LwtYield(to: Option<Tid>) returns (switched: bool)
      requires current < |threads| && RUN < |rings| && (to.Some? ==> to.value < |threads|)
      requires CanFinish(YieldBody(St(), to))
      modifies this
      ensures switched == YieldBody(old(St()), to).schedules
      ensures St() == Finish(YieldBody(old(St()), to))
    {
      if to == Some(current)
         || (to.Some? && threads[to.value].state != RUNNABLE && threads[to.value].state != RUNNING) {
        return false;
      }
      if to.Some? {
        rings := Unlink(rings, to.value);
        rings := rings[RUN := BeforeLast(rings[RUN], to.value)];
      } else if threads[current].state == RUNNABLE || threads[current].state == RUNNING {
        rings := Unlink(rings, current);
        rings := rings[RUN := rings[RUN] + [current]];
      }
      LwtSchedule();
      return true;
    }

    /** __block_thread on the current thread, which will go on with rest. */
    method BlockThread(why: BlockFor, c: Cid, rest: Cont)
      requires current < |threads| && RUN < |rings| && (why == SENDING ==> Senders(c) < |rings|)
      requires CanSchedule(Block(St(), why, c, rest))
      modifies this
      ensures St() == Schedule(Block(old(St()), why, c, rest))
    {
      hide Schedule, CanSchedule, Unlink;
      var t := current;
      rings := Unlink(rings, t);
      if why == RECEIVING {
        nrcving := nrcving + 1;
      } else {
        rings := rings[Senders(c) := rings[Senders(c)] + [t]];
        nsnding := nsnding + 1;
      }
      threads := threads[t := threads[t].(state := BLOCKED, blockFor := why, cont := rest)];
      blockCounter := blockCounter + 1;
      var _ := LwtYield(None);
    }

    /** lwt_chan, __init_chan */
    method LwtChan(size: nat, private: bool) returns (c: Cid)
      modifies this
      ensures St() == NewChan(old(St()), size, private) && c == |old(chans)|
    {
      c := |chans|;
      chans := chans + [Chan.Chan(Some(current), seq(size, _ => 0), 0, 0, false, None, private, One(private), false)];
      rings := rings + [[]];
    }

    /** chan->buffer.data_buffer[chan->buffer.tail++ % chan->size] = v */
    method PutLast(c: Cid, v: Value)
      requires c < |chans| && chans[c].Size() > 0
      modifies this`chans
      ensures chans == old(chans)[c := Put(old(chans[c]), v)]
    {
      var ch := chans[c];
      chans := chans[c := ch.(data := ch.data[Slot(ch.tail, ch.Size()) := v], tail := ch.tail + 1)];
    }

    /** lwt_chl.c:138-142 */
    method SignalGroup(c: Cid)
      requires Refs(St()) && c < |chans|
      modifies this
      ensures St() == Signal(old(St()), c).s
      ensures chans == old(chans)[c := old(chans[c]).(ready := true)] && current == old(current)
      ensures |threads| == |old(threads)| && |rings| == |old(rings)|
    {
      hide TcbRefs, Resume;
      chans := chans[c := chans[c].(ready := true)];
      var g := chans[c].cgroup;
      if g.Some? && groups[g.value].blocked {
        ResumeSizes(St(), groups[g.value].owner);
        ResumeThread(groups[g.value].owner);
      }
    }

    method LwtSnd(c: Cid, v: Value, rest: Cont) returns (code: int, switched: bool, ghost ev: seq<Event>)
      requires Refs(St()) && c < |chans| && CanFinish(SndBody(St(), c, v, rest))
      modifies this
      ensures
        var o := SndBody(old(St()), c, v, rest);
        St() == Finish(o) && switched == o.schedules && ev == o.ev
      ensures code == if old(chans[c]).receiver == None then -1 else 0
      ensures code == -1 ==> St() == old(St())
      ensures Told(ev) == if code == -1 then Refused else Nothing
    {
      hide TcbRefs, Resume, Signal, Block, Put, CanSchedule, Schedule;
      ev := SndBody(St(), c, v, rest).ev;
      SndTells(St(), c, v, rest);
      if chans[c].receiver == None {
        return -1, false, ev;
      }
      var r := chans[c].receiver.value;
      if threads[r].state == BLOCKED && threads[r].blockFor == RECEIVING && threads[r].nowRcving == Some(c) {
        threads := threads[r := threads[r].(message := v)];
        ResumeThread(r);
        return 0, false, ev;
      }
      SignalGroup(c);
      if chans[c].tail - chans[c].head != chans[c].Size() {
        PutLast(c, v);
        return 0, false, ev;
      }
      threads := threads[current := threads[current].(message := v)];
      BlockThread(SENDING, c, rest);
      return 0, true, ev;
    }

    /** lwt_chl.c:227-243 */
    method RcvBuffered(c: Cid, ghost rest: Cont) returns (result: Value)
      requires Refs(St()) && c < |chans| && chans[c].tail != chans[c].head
      modifies this
      ensures
        var o := RcvBody(old(St()), c, rest);
        St() == o.s && o.ev == [Returned(c, result)] && !o.schedules
    {
      hide TcbRefs, Block, CanSchedule, Schedule, Put, First, MoveBeforeLast;
      var queue := rings[Senders(c)];
      result := First(chans[c]);
      chans := chans[c := chans[c].(head := chans[c].head + 1)];
      if queue != [] {
        assert queue[0] in rings[Senders(c)];
        ResumeSizes(St(), queue[0]);
        ResumeThread(queue[0]);
        PutLast(c, threads[queue[0]].message);
      }
      chans := chans[c := chans[c].(ready := chans[c].head != chans[c].tail)];
      assert chans == old(chans)[c := chans[c]];
    }

    /** lwt_chl.c:249-254 */
    method RcvQueued(c: Cid, ghost rest: Cont) returns (result: Value)
      requires Refs(St()) && c < |chans| && chans[c].tail == chans[c].head && rings[Senders(c)] != []
      modifies this
      ensures
        var o := RcvBody(old(St()), c, rest);
        St() == o.s && o.ev == [Returned(c, result)] && !o.schedules
    {
      hide TcbRefs, Block, CanSchedule, Schedule, Put, First, MoveBeforeLast;
      var sender := rings[Senders(c)][0];
      assert sender in rings[Senders(c)];
      result := threads[sender].message;
      ResumeSizes(St(), sender);
      ResumeThread(sender);
      chans := chans[c := chans[c].(ready := rings[Senders(c)] != [])];
    }

    /** If it blocks, the result comes from Resumed. */
    method LwtRcv(c: Cid, rest: Cont) returns (result: Value, switched: bool, ghost ev: seq<Event>)
      requires Refs(St()) && c < |chans| && CanFinish(RcvBody(St(), c, rest))
      modifies this
      ensures
        var o := RcvBody(old(St()), c, rest);
        && St() == Finish(o) && switched == o.schedules && ev == o.ev
        && ev == if switched then [] else [Returned(c, result)]
    {
      hide TcbRefs, Block, CanSchedule, Schedule, Put, First, Resume;
      if chans[c].tail - chans[c].head != 0 {
        result := RcvBuffered(c, rest);
        return result, false, [Returned(c, result)];
      }
      if rings[Senders(c)] != [] {
        result := RcvQueued(c, rest);
        return result, false, [Returned(c, result)];
      }
      threads := threads[current := threads[current].(nowRcving := Some(c))];
      BlockThread(RECEIVING, c, rest);
      return 0, true, [];
    }

    /** lwt_create, __init_thread */
    method LwtCreate(nojoin: bool) returns (t: Tid)
      requires Refs(St())
      modifies this
      ensures St() == CreateBody(old(St()), nojoin).s
      ensures t == if old(rings[RECYCLE]) != [] then old(rings[RECYCLE][0]) else |old(threads)|
    {
      var was := Tcb(RUNNING, RECEIVING, None, 0, 0, None, false, Idle);
      if rings[RECYCLE] != [] {
        t := rings[RECYCLE][0];
        assert t in rings[RECYCLE];
        was := threads[t];
      } else {
        t := |threads|;
      }
      var chl := LwtChan(0, true);
      var x := was.(state := RUNNING, parent := Some(current), message := 0,
                    chl := chl, nojoin := nojoin, cont := Idle);
      threads := if t < |threads| then threads[t := x] else threads + [x];
      rings := Unlink(rings, t);
      rings := rings[RUN := rings[RUN] + [t]];
    }

    /** The end of lwt_die. */
    method Exit() returns (ghost ev: seq<Event>)
      requires current < |threads| && RECYCLE < |rings| && CanFinish(ExitBody(St()))
      modifies this
      ensures St() == Finish(ExitBody(old(St()))) && ev == ExitBody(old(St())).ev
    {
      ev := ExitBody(St()).ev;
      threads := threads[current := threads[current].(state := ZOMBIES, cont := Idle)];
      zombieCounter := zombieCounter - 1;
      rings := Unlink(rings, current);
      rings := rings[RECYCLE := rings[RECYCLE] + [current]];
      LwtSchedule();
    }

    method LwtDie(v: Value) returns (ghost ev: seq<Event>)
      requires Refs(St()) && CanFinish(DieBody(St(), v))
      modifies this
      ensures St() == Finish(DieBody(old(St()), v)) && ev == DieBody(old(St()), v).ev
    {
      hide SndBody, TcbRefs, CanSchedule, Schedule;
      ghost var s := St();
      DieBodyRefs(s);
      var c := threads[current].chl;
      zombieCounter := zombieCounter + 1;
      threads := threads[current := threads[current].(message := v)];
      assert St() == WithMessage(s.(zombieCounter := s.zombieCounter + 1), s.current, v);
      MessageRefs(s, St());
      SndKin(St(), c, v, DieSnd(c));
      ghost var sent, gone;
      var code, switched;
      code, switched, sent := LwtSnd(c, v, DieSnd(c));
      ev := [Died(s.current, c, v)] + sent;
      if !switched {
        gone := Exit();
        ev := ev + gone;
      }
    }

    /** If it blocks, the word comes from Resumed. */
    method LwtJoin(child: Tid) returns (result: Option<Value>, switched: bool, ghost ev: seq<Event>)
      requires Refs(St()) && child < |threads| && CanFinish(JoinBody(St(), child))
      modifies this
      ensures
        var o := JoinBody(old(St()), child);
        && St() == Finish(o) && switched == o.schedules && ev == o.ev
        && Told(ev) == if result.Some? then Word(result.value) else if switched then Nothing else Refused
      ensures old(threads[child]).parent != Some(old(current)) || old(threads[child]).nojoin ==>
        result == None && !switched && St() == old(St())
    {
      hide RcvBody, YieldBody, TcbRefs, CanSchedule, Schedule;
      ChlRefs(St(), child);
      RcvKin(St(), threads[child].chl, JoinReturn(child, threads[child].chl));
      if threads[child].parent != Some(current) || threads[child].nojoin {
        return None, false, [Failed];
      }
      var c := threads[child].chl;
      var word;
      word, switched, ev := LwtRcv(c, JoinReturn(child, c));
      if switched {
        return None, true, ev;
      }
      switched := LwtYield(Some(child));
      return Some(word), switched, ev + [Joined(child, c, word)];
    }

    method LwtChanDeref(c: Cid)
      requires c < |chans|
      modifies this`chans
      ensures St() == DerefBody(old(St()), c).s
    {
      if chans[c].receiver == Some(current) {
        chans := chans[c := chans[c].(receiver := None)];
      } else {
        chans := chans[c := chans[c].(sndCnt := chans[c].sndCnt - 1)];
      }
      chans := chans[c := chans[c].(freed := chans[c].sndCnt == 0 && chans[c].receiver == None)];
      assert chans == old(chans)[c := chans[c]];
    }

    /** lwt_chl.c:40 */
    method CountSender(c: Cid)
      requires c < |chans|
      modifies this`chans
      ensures St() == ShareBody(old(St()), c).s
    {
      chans := chans[c := chans[c].(sndCnt := chans[c].sndCnt + 1)];
    }

    /** lwt_cgrp */
    method LwtCgrp() returns (g: Gid)
      modifies this`groups
      ensures St() == NewGroupBody(old(St())).s && g == |old(groups)|
    {
      g := |groups|;
      groups := groups + [Group([], current, false)];
    }

    method LwtCgrpAdd(g: Gid, c: Cid) returns (code: int)
      requires g < |groups| && c < |chans|
      modifies this`groups, this`chans
      ensures St() == GroupAddBody(old(St()), g, c).s
      ensures code == if old(chans[c]).cgroup.Some? then -1 else 0
      ensures code != 0 ==> St() == old(St())
    {
      if chans[c].cgroup.Some? {
        return -1;
      }
      groups := groups[g := groups[g].(members := BeforeLast(groups[g].members, c))];
      chans := chans[c := chans[c].(cgroup := Some(g))];
      return 0;
    }

    method LwtCgrpRem(g: Gid, c: Cid) returns (code: int)
      requires g < |groups| && c < |chans|
      modifies this`groups, this`chans
      ensures St() == GroupRemBody(old(St()), g, c).s
      ensures code == if old(chans[c]).ready then 1 else if old(chans[c]).cgroup != Some(g) then -1 else 0
      ensures code != 0 ==> St() == old(St())
    {
      if chans[c].ready {
        return 1;
      }
      if chans[c].cgroup != Some(g) {
        return -1;
      }
      groups := groups[g := groups[g].(members := Without(groups[g].members, c))];
      chans := chans[c := chans[c].(cgroup := None)];
      return 0;
    }

    /** lwt_chl.c:414-423: the walk through the group's channels. */
    method FindReady(g: Gid) returns (chan: Option<Cid>)
      requires Refs(St()) && g < |groups|
      ensures chan == FirstReady(chans, groups[g].members)
    {
      hide TcbRefs, ChanRefs, FirstReady;
      var rest: seq<Cid> := groups[g].members;
      assert MembersOk(chans, rest) by {
        assert forall k :: 0 <= k < |rest| ==> rest[k] in groups[g].members;
      }
      while rest != []
        invariant MembersOk(chans, rest) && (forall c :: c in rest ==> c < |chans|)
        invariant FirstReady(chans, rest) == FirstReady(chans, groups[g].members)
        decreases |rest|
      {
        FirstReadyFrom(chans, rest);
        if chans[rest[0]].ready {
          return Some(rest[0]);
        }
        rest := rest[1..];
      }
      NoneReady(chans);
      return None;
    }

    /** One round of the loop of lwt_cgrp_wait. */
    method WaitRound(g: Gid) returns (chan: Option<Cid>, switched: bool, ghost ev: seq<Event>)
      requires Refs(St()) && g < |groups| && CanFinish(WaitBody(St(), g))
      modifies this
      ensures
        var o := WaitBody(old(St()), g);
        && St() == Finish(o) && switched == o.schedules && ev == o.ev
        && switched == (chan == None)
        && ev == if chan.Some? then [Ready(g, chan.value)] else []
    {
      hide FirstReady, TcbRefs, CanSchedule, Schedule;
      chan := FindReady(g);
      if chan.Some? {
        groups := groups[g := groups[g].(blocked := false)];
        threads := threads[current := threads[current].(cont := Idle)];
        return chan, false, [Ready(g, chan.value)];
      }
      groups := groups[g := groups[g].(blocked := true)];
      rings := Unlink(rings, current);
      blockCounter := blockCounter + 1;
      nrcving := nrcving + 1;
      threads := threads[current := threads[current].(state := BLOCKED, blockFor := RECEIVING, cont := GroupWait(g))];
      switched := LwtYield(None);
      ev := [];
    }

    /** If it blocks, the channel comes from Resumed. */
    method LwtCgrpWait(g: Gid) returns (chan: Option<Cid>, switched: bool, ghost ev: seq<Event>)
      requires Refs(St()) && g < |groups| && CanFinish(Body(St(), Wait(g)))
      modifies this
      ensures
        var o := Body(old(St()), Wait(g));
        && St() == Finish(o) && switched == o.schedules && ev == o.ev
        && ev == if chan.Some? then [Ready(g, chan.value)] else if switched then [] else [Failed]
    {
      hide WaitBody, TcbRefs;
      if groups[g].members == [] {
        return None, false, [Failed];
      }
      chan, switched, ev := WaitRound(g);
    }

    /** A dispatched thread finishes the call it had blocked in, and its caller gets what
        that call returns: the message handed over to lwt_rcv or lwt_join
        (lwt_chl.c:261, lwt.c:272), or the channel lwt_cgrp_wait was waiting for. */
    method Resumed() returns (answer: Answer, switched: bool, ghost ev: seq<Event>)
      requires Refs(St()) && CanFinish(ContinueBody(St()))
      modifies this
      ensures
        var o := ContinueBody(old(St()));
        St() == Finish(o) && switched == o.schedules && ev == o.ev
      ensures answer == Told(ev)
      ensures
        var x := old(threads[current]);
        && (x.cont.RcvReturn? || x.cont.JoinReturn? ==> answer == Word(x.message))
        && (x.cont.GroupWait? && switched ==> answer == Nothing)
        && (x.cont.GroupWait? && !switched ==> answer.Channel? && ev == [Ready(x.cont.g, answer.c)])
    {
      hide WaitBody, YieldBody, TcbRefs, CanSchedule, Schedule;
      ContRefs(St(), current);
      ghost var s := St();
      var rest, message := threads[current].cont, threads[current].message;
      answer, switched := Nothing, false;
      if rest.DieSnd? {
        ev := Exit();
        switched := true;
      } else if rest.GroupWait? {
        var chan;
        chan, switched, ev := WaitRound(rest.g);
        if chan.Some? {
          answer := Channel(chan.value);
        }
      } else if rest != Idle {
        ev := ContinueBody(s).ev;
        threads := threads[current := threads[current].(cont := Idle)];
        if rest.RcvReturn? {
          answer := Word(message);
        } else if rest.JoinReturn? {
          switched := LwtYield(Some(rest.child));
          answer := Word(message);
        }
      } else {
        ev := [];
      }
    }

    /** The library as a whole: any call does what the machine does, tells its caller what
        happened, and keeps the invariant. */
    method Step(call: Call) returns (answer: Answer, ghost ev: seq<Event>)
      requires Enabled(St(), call) && Inv(St()) && Kin(St())
      modifies this
      ensures St() == Exec(old(St()), call) && Inv(St()) && Kin(St())
      ensures ev == Body(old(St()), call).ev && answer == AnswerOf(old(St()), call)
    {
      hide SndBody, RcvBody, DieBody, JoinBody, YieldBody, CreateBody, WaitBody, ContinueBody;
      hide GroupAddBody, GroupRemBody, TcbRefs, CanSchedule, Schedule, Inv, Kin;
      ExecInv(St(), call);
      ghost var s := St();
      var switched, code, word, chan;
      answer, ev := Nothing, Body(s, call).ev;
      match call {
        case Yield(to) =>
          YieldSays(s, to);
          switched := LwtYield(to);
        case Create(nojoin) =>
          CreateStays(s, nojoin);
          var t := LwtCreate(nojoin);
          answer := Made(t);
        case MakeChan(size) =>
          var c := LwtChan(size, false);
          answer := Made(c);
        case Snd(c, v) =>
          code, switched, ev := LwtSnd(c, v, SndReturn(c));
          answer := if code == -1 then Refused else Nothing;
        case Rcv(c) =>
          word, switched, ev := LwtRcv(c, RcvReturn(c));
          answer := if switched then Nothing else Word(word);
        case Deref(c) =>
          LwtChanDeref(c);
        case Share(c) =>
          CountSender(c);
        case Die(v) =>
          DieTold(s, v);
          ev := LwtDie(v);
        case Join(child) =>
          var result;
          result, switched, ev := LwtJoin(child);
          answer := if result.Some? then Word(result.value) else if switched then Nothing else Refused;
        case NewGroup =>
          var g := LwtCgrp();
          answer := Made(g);
        case GroupAdd(g, c) =>
          AddStays(s, g, c);
          code := LwtCgrpAdd(g, c);
          answer := if code == 0 then Nothing else Refused;
        case GroupRem(g, c) =>
          RemStays(s, g, c);
          code := LwtCgrpRem(g, c);
          answer := if code == 0 then Nothing else Refused;
        case Wait(g) =>
          chan, switched, ev := LwtCgrpWait(g);
          answer := if chan.Some? then Channel(chan.value) else if switched then Nothing else Refused;
        case Continue =>
          answer, switched, ev := Resumed();
      }
    }
  }

  lemma SndTells(s: State, c: Cid, v: Value, rest: Cont)
    requires Refs(s) && c < |s.chans|
    ensures Told(SndBody(s, c, v, rest).ev) == if s.chans[c].receiver == None then Refused else Nothing
  {
    hide TcbRefs, Resume, Signal, Block, Put;
  }

  lemma DieTold(s: State, v: Value)
    requires Refs(s)
    ensures DieBody(s, v).schedules && Told(DieBody(s, v).ev) == Nothing
  {
    hide TcbRefs, SndBody;
    DieBodyRefs(s);
    var c, s1 := s.Cur().chl, WithMessage(s.(zombieCounter := s.zombieCounter + 1), s.current, v);
    MessageRefs(s, s1);
    SndTells(s1, c, v, DieSnd(c));
    SndKin(s1, c, v, DieSnd(c));
    var sent := SndBody(s1, c, v, DieSnd(c)).ev;
    assert sent != [] ==> ([Died(s.current, c, v)] + sent)[|sent|] == sent[|sent| - 1];
    SndFails(s1, c, v, DieSnd(c));
  }

  lemma SndFails(s: State, c: Cid, v: Value, rest: Cont)
    requires Refs(s) && c < |s.chans|
    ensures s.chans[c].receiver == None ==> !SndBody(s, c, v, rest).schedules
  {
  }

  lemma CreateStays(s: State, nojoin: bool)
    requires Refs(s)
    ensures !CreateBody(s, nojoin).schedules
  {
  }

  lemma AddStays(s: State, g: Gid, c: Cid)
    requires g < |s.groups| && c < |s.chans|
    ensures !GroupAddBody(s, g, c).schedules
    ensures Told(GroupAddBody(s, g, c).ev) == if s.chans[c].cgroup.Some? then Refused else Nothing
  {
  }

  lemma RemStays(s: State, g: Gid, c: Cid)
    requires g < |s.groups| && c < |s.chans|
    ensures !GroupRemBody(s, g, c).schedules
    ensures Told(GroupRemBody(s, g, c).ev) ==
      if s.chans[c].ready || s.chans[c].cgroup != Some(g) then Refused else Nothing
  {
  }
}
